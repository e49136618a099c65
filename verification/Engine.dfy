/**
 * The worker's execution loop, and the recovery of a dead worker, as they run (company_worker_engine.ts,
 * company_worker_adapter.ts). Wherever they wait the rest of the company may move and the process may die; in the
 * protocol it may die between any two moves. Everything they do is a run of that protocol, so what holds of every run
 * holds of them.
 */
module Engine {
  import opened Wrappers
  import opened AttemptStates
  import opened Journal
  import opened WorkerProtocol
  import opened WorkerRuns
  import opened WorkerSafety
  import opened WorkerController
  import opened WorkerTools
  import opened WorkerTheorems
  import opened WorkerResults
  import opened WorkerReports
  import opened WorkerRecovery
  import opened WorkerVerdicts
  import opened JournalService
  import opened AdapterService
  import Ledger

  /** Why the loop stops: the process is gone, or an exception. */
  datatype Stop = Gone | Fault(code: string)

  /** How a worker process ends. */
  datatype Ending = Dead | SuspendedBy(reason: string) | Ended

  const DISCONNECTED := "OWNER_CONTROLLER_DISCONNECTED"

  predicate HasPrefix(text: string, prefix: string) {
    |text| >= |prefix| && text[..|prefix|] == prefix
  }

  /** The reason recorded for an exception. */
  function ReasonFor(code: string): string {
    if code in {"CALL_OUTCOME_UNKNOWN", "TOOL_OUTCOME_UNKNOWN", "OWNER_MODEL_NOT_SENT", "MODEL_RESPONSE_INVALID"}
        || HasPrefix(code, "OWNER_PROGRESS_")
    then code else "OWNER_WORKER_FAILED"
  }

  /** How the attempt ends for it. */
  function EndFor(code: string): AttemptState {
    if ReasonFor(code) in {"MODEL_RESPONSE_INVALID", "OWNER_WORKER_FAILED"} then Failed else Blocked
  }

  /** An exception that leaves the attempt to the owner: something may have happened that nobody can tell, or more of
      the same is pointless. */
  predicate ForTheOwner(code: string) {
    || code == "CALL_OUTCOME_UNKNOWN" || code == "TOOL_OUTCOME_UNKNOWN" || code == "OWNER_MODEL_NOT_SENT"
    || HasPrefix(code, "OWNER_PROGRESS_")
  }

  lemma EndIs(code: string)
    ensures ForTheOwner(code) ==> EndFor(code).Blocked? && ReasonFor(code) == code
    ensures !ForTheOwner(code) ==>
      EndFor(code).Failed?
      && ReasonFor(code) == if code == "MODEL_RESPONSE_INVALID" then code else "OWNER_WORKER_FAILED"
  {
    if HasPrefix(code, "OWNER_PROGRESS_") {
      assert code[0] == code[..15][0] == 'O' && code[6] == code[..15][6] == 'P';
    }
  }

  /** The last event says how the attempt ended, and why. */
  predicate EndsWith(j: Rows, kind: AttemptState, why: string) {
    && j.terminal == Some(kind) && j.events != [] && j.events[|j.events| - 1] == FinishEvent(kind, why)
  }

  /** The loop reached an end of its own. */
  predicate Finished(j: Rows) {
    EndsWith(j, Completed, "") || EndsWith(j, Blocked, "OWNER_NO_REPLY")
        || EndsWith(j, Blocked, "OWNER_EXECUTION_STEP_LIMIT")
  }

  /** A row whose call may have been delivered without an answer. */
  predicate InDoubtAt(j: Rows, k: nat) {
    k in j.models && (j.models[k].state.CallSent? || j.models[k].state.CallUnknown?)
  }

  /** A row proved unsent as often as the specification allows. */
  predicate ExhaustedAt(j: Rows, k: nat, retries: nat) {
    k in j.models && j.models[k].state.CallNotSent? && j.models[k].attempts > retries
  }

  /** The result of an operation is in the journal. */
  predicate Done(j: Rows, id: ToolId) {
    id in j.tools && j.tools[id].state.ToolDone?
  }

  /** What the provider's answer proves about its call. */
  function Proof(w: Phase): Verdict {
    if w.Answered? then Delivered else if w.Refused? then ProvedUnsent else InDoubt
  }

  /** The moves of everyone but the worker process. */
  predicate Others(m: Move) {
    m.Deliver? || m.AnswerPermit? || m.AcceptCommand? || m.RefuseCommand? || m.CommitEffect? || m.CommitReceipt?
        || m.WorkerReady?
    || m.ControllerRestart? || m.Elsewhere? || m.Retire?
  }

  /** What the worker notices of the others' moves: an answer it waits for, or a lost connection. */
  ghost predicate Meanwhile(s: System, t: System) {
    && t.spec == s.spec && t.j == s.j && t.c.firstPermit == s.c.firstPermit && t.calls == s.calls
        && t.c.epoch == s.c.epoch
    && (t.rpc == s.rpc || t.rpc.NoRpc?)
    && match s.w
       case Asking(k) => t.w == s.w || t.w.Idle? || (t.w.Permitted? && t.w.step == k)
       case Commanding(id) => t.w == s.w || t.w.Idle? || (t.w.ToolFinished? && t.w.id == id)
       case _ => t.w == s.w
  }

  lemma {:induction false} DrainKeepsIdentity(spec: Spec, c: Controller)
    ensures Drain(spec, c).Ok? ==>
        Drain(spec, c).value.firstPermit == c.firstPermit && Drain(spec, c).value.epoch == c.epoch
    decreases Buffered(c)
  {
    var n := c.lastSequence + 1;
    if n in c.inbox {
      var r := ApplyEvent(spec, c, c.inbox[n]);
      if r.Ok? {
        var d := r.value.(lastSequence := n, applied := r.value.applied + [c.inbox[n]]);
        assert n in Buffered(c) && n !in Buffered(d) && Buffered(d) <= Buffered(c);
        DrainKeepsIdentity(spec, d);
      }
    }
  }

  lemma DeliverMeanwhile(s: System, n: nat)
    ensures Meanwhile(s, OnDeliver(s, n))
  {
    if OnDeliver(s, n) != s {
      DrainKeepsIdentity(s.spec, s.c.(inbox := s.c.inbox[n := s.j.events[n - 1]]));
    }
  }

  lemma AnswerMeanwhile(s: System, t: Terms)
    requires s.rpc.AskPermit? ==> s.w == Asking(s.rpc.step) || s.w.Down?
    ensures Meanwhile(s, OnAnswerPermit(s, t))
  {
    if s.rpc.AskPermit? { AuthorizeShape(s.spec, s.c, s.rpc.step, s.rpc.history, t); }
  }

  lemma CommandsMeanwhile(s: System, success: bool, output: nat)
    requires s.rpc.AskCommand? ==> s.w == Commanding(s.rpc.id) || s.w.Down?
    ensures Meanwhile(s, OnAcceptCommand(s)) && Meanwhile(s, OnRefuseCommand(s)) && Meanwhile(s, OnCommitEffect(s))
        && Meanwhile(s, OnCommitReceipt(s, success, output))
  {
  }

  lemma RestMeanwhile(s: System, op: Ledger.Op)
    ensures Meanwhile(s, OnControllerRestart(s)) && Meanwhile(s, OnElsewhere(s, op))
  {
  }

  lemma StateMeanwhile(s: System, refused: bool, kind: AttemptState, why: string)
    ensures Meanwhile(s, OnReady(s, refused)) && Meanwhile(s, OnRetire(s, kind, why))
  {
  }

  lemma CompanyMovesMeanwhile(s: System, m: Move)
    requires PhaseInv(s)
    requires m.AnswerPermit? || m.WorkerReady? || m.Retire? || m.ControllerRestart? || m.Elsewhere?
    ensures Meanwhile(s, Next(s, m))
  {
    hide Meanwhile, ModelNext, ToolNext, ProcessNext, LeavingNext, RecoveryNext, OnAnswerPermit, OnReady, OnRetire,
        OnControllerRestart, OnElsewhere, Unmentioned, Uncalled, InCall, LastCall, Usable, AskOk;
    match m
    case AnswerPermit(t) => AnswerMeanwhile(s, t);
    case WorkerReady(refused) => StateMeanwhile(s, refused, Blocked, "");
    case Retire(kind, why) => StateMeanwhile(s, false, kind, why);
    case ControllerRestart => RestMeanwhile(s, Ledger.RestartOp);
    case Elsewhere(op) => RestMeanwhile(s, op);
  }

  lemma OthersMeanwhile(s: System, m: Move)
    requires Others(m) && PhaseInv(s)
    ensures Meanwhile(s, Next(s, m))
  {
    hide Meanwhile, PhaseInv, Next, OnDeliver;
    if m.AcceptCommand? || m.RefuseCommand? || m.CommitEffect? || m.CommitReceipt? {
      CommandMovesMeanwhile(s, m);
    } else if m.Deliver? {
      RecoveryIsNext(s, m);
      DeliverMeanwhile(s, m.sequence);
    } else {
      CompanyMovesMeanwhile(s, m);
    }
  }

  lemma CommandMovesMeanwhile(s: System, m: Move)
    requires (m.AcceptCommand? || m.RefuseCommand? || m.CommitEffect? || m.CommitReceipt?) && PhaseInv(s)
    ensures Meanwhile(s, Next(s, m))
  {
    hide Meanwhile, OnAcceptCommand, OnRefuseCommand, OnCommitEffect, OnCommitReceipt, ModelNext, ToolNext, LeavingNext,
        RecoveryNext, ControllerNext;
    match m
    case AcceptCommand => CommandsMeanwhile(s, true, 0);
    case RefuseCommand => CommandsMeanwhile(s, true, 0);
    case CommitEffect => CommandsMeanwhile(s, true, 0);
    case CommitReceipt(success, output) => CommandsMeanwhile(s, success, output);
  }

  lemma MeanwhileNothing(s: System)
    ensures Meanwhile(s, s)
  {
  }

  lemma CrashIsAMove(s: System)
    ensures Next(s, Crash) == s.(w := Down)
  {
    hide ModelNext, ToolNext, LeavingNext, RecoveryNext, ControllerNext;
  }

  lemma MeanwhileTransitive(s: System, t: System, u: System)
    requires Meanwhile(s, t) && Meanwhile(t, u)
    ensures Meanwhile(s, u)
  {
  }

  lemma RunLogs(origin: System, trace: seq<Move>, m: Move)
    ensures Run(origin, trace + [m]) == Next(Run(origin, trace), m)
  {
    hide Next;
    assert (trace + [m])[..|trace|] == trace;
  }

  /** What the invariant says of the row a call is made for. */
  lemma CallPhase(s: System)
    requires Inv(s)
    ensures s.w.Idle? ==> s.rpc.NoRpc?
    ensures s.w.Permitted? ==>
        s.rpc.NoRpc? && s.w.step in s.j.models && s.j.models[s.w.step].state.Prepared? && s.w.step == s.j.nextStep
    ensures s.w.Armed? || s.w.Calling? || s.w.Answered? || s.w.Refused? || s.w.Lost? ==>
      s.rpc.NoRpc? && s.w.step in s.j.models && s.j.models[s.w.step].state.CallSent?
          && s.j.models[s.w.step].permit == Some(s.w.permit)
  {
    hide Ledger.Inv, JournalInv, GrantInv, CallInv, EventInv, AnswerInv, DeliveryInv, StopInv;
  }

  lemma ToolPhase(s: System, id: ToolId)
    requires Inv(s)
    ensures s.w.RunningTool? || s.w.ToolFinished? ==>
        s.rpc.NoRpc? && s.w.id in s.j.tools && s.j.tools[s.w.id].state.ToolStarted?
    ensures id in s.j.tools && !s.j.tools[id].state.ToolDone? ==> s.j.tools[id].result.None?
  {
    hide Ledger.Inv, JournalInv, GrantInv, CallInv, EventInv, AnswerInv, DeliveryInv, StopInv;
    if id in s.j.tools { assert ToolOk(s, id); }
  }

  lemma FewAttempts(s: System, k: nat)
    requires Inv(s) && k in s.j.models
    ensures s.j.models[k].attempts <= s.spec.retries + 1 && s.spec.retries <= 1
    ensures s.j.models[k].state.Prepared? ==> s.j.models[k].attempts <= s.spec.retries
  {
    hide Ledger.Inv, GrantInv, CallInv, EventInv, PhaseInv, AnswerInv, DeliveryInv, ToolInv, StopInv;
    assert RowOk(s.spec, s.j, s.c.grants, k);
  }

  lemma ReachedMeanwhile(origin: System, trace: seq<Move>, m: Move)
    requires Created(origin) && Others(m)
    ensures Meanwhile(Run(origin, trace), Next(Run(origin, trace), m))
  {
    hide Next, Run, Meanwhile;
    RunKeepsInv(origin, trace);
    OthersMeanwhile(Run(origin, trace), m);
  }

  lemma SameIdentity(s: System, t: System)
    requires Meanwhile(s, t)
    ensures t.j == s.j && t.spec == s.spec && t.c.firstPermit == s.c.firstPermit && t.calls == s.calls
  {
  }

  class CompanyWorkerHost {
    const spec: Spec
    const journal: CompanyWorkerJournal
    const adapter: CompanyWorkerAdapter
    var w: Phase
    var rpc: Rpc
    var connected: bool
    var calls: seq<ProviderCall>
    var effects: multiset<ToolId>
    ghost var origin: System
    ghost var trace: seq<Move>

    function Now(): System
      reads this, journal, adapter
    {
      System(spec, journal.Tables(), adapter.Rows(), w, rpc, connected, calls, effects)
    }

    /** The present state was reached from a created attempt by the moves of `trace`. */
    ghost predicate Valid()
      reads this, journal, adapter
    {
      adapter.spec == spec && Created(origin) && Now() == Run(origin, trace)
    }

    constructor (spec: Spec, journal: CompanyWorkerJournal, adapter: CompanyWorkerAdapter)
      requires adapter.spec == spec
      requires Created(System(spec, journal.Tables(), adapter.Rows(), Down, NoRpc, false, [], multiset{}))
      ensures Valid() && this.spec == spec && this.journal == journal && this.adapter == adapter
    {
      this.spec, this.journal, this.adapter, w, rpc, connected, calls, effects := spec, journal, adapter, Down, NoRpc,
          false, [], multiset{};
      origin, trace := System(spec, journal.Tables(), adapter.Rows(), Down, NoRpc, false, [], multiset{}), [];
    }

    ghost method Log(m: Move)
      requires adapter.spec == spec && Created(origin) && Now() == Next(Run(origin, trace), m)
      modifies `trace
      ensures Valid() && trace == old(trace) + [m]
    {
      hide Run, Created, Next;
      RunLogs(origin, trace, m);
      trace := trace + [m];
    }

    /** The history has only been extended. */
    twostate predicate Continues()
      reads this
    {
      origin == old(origin) && old(trace) <= trace
    }

    lemma Keeps()
      requires Valid()
      ensures Inv(Now())
    {
      hide Run, Created, Inv, Next;
      RunKeepsInv(origin, trace);
    }

    // ---- The passing of time ----

    method Perform(m: Move)
      requires Valid() && Others(m)
      modifies this, adapter
      ensures Valid() && Now() == Next(old(Now()), m) && Meanwhile(old(Now()), Now())
      ensures Continues()
    {
      hide Inv, Next, Run, Created, Meanwhile;
      ReachedMeanwhile(origin, trace, m);
      var t := Next(Now(), m);
      SameIdentity(Now(), t);
      Install(t);
      Log(m);
    }

    method Install(t: System)
      requires t.spec == spec && t.j == journal.Tables() && t.c.firstPermit == adapter.firstPermit
      modifies `w, `rpc, `connected, `calls, `effects, adapter
      ensures Now() == t
    {
      w, rpc, connected, calls, effects := t.w, t.rpc, t.connected, t.calls, t.effects;
      adapter.Load(t.c);
    }

    /** The others make any moves they like; or the process dies. */
    method Pass() returns (alive: bool)
      requires Valid()
      modifies this, adapter
      ensures Valid() && calls == old(calls) && Continues()
      ensures alive ==> Meanwhile(old(Now()), Now())
      ensures !alive ==> w.Down? && Now().j == old(Now()).j
    {
      hide Run, Created, Inv, Next, Meanwhile;
      var moves: seq<Move> := *;
      MeanwhileNothing(Now());
      for i := 0 to |moves|
        invariant Valid() && Meanwhile(old(Now()), Now()) && Continues()
      {
        if Others(moves[i]) {
          label before:
          Perform(moves[i]);
          MeanwhileTransitive(old(Now()), old@before(Now()), Now());
        }
      }
      SameIdentity(old(Now()), Now());
      alive := *;
      if !alive {
        CrashIsAMove(Now());
        w := Down;
        Log(Crash);
      }
    }

    /** Time passes while the worker waits for no answer. */
    method Wait() returns (alive: bool)
      requires Valid() && !w.Asking? && !w.Commanding?
      modifies this, adapter
      ensures Valid() && journal.Tables() == old(journal.Tables()) && calls == old(calls) && Continues()
      ensures if alive then w == old(w) else w.Down?
    {
      hide Run, Created, Inv, Next;
      alive := Pass();
    }

    // ---- The steps of the worker ----

    method CreateJournal()
      requires Valid() && w.Booting? && journal.file.Absent?
      modifies this, journal
      ensures Valid() && Now() == OnOpenJournal(old(Now()))
    {
      hide Run, Created, ModelNext, ToolNext, LeavingNext, RecoveryNext, ControllerNext;
      journal.CreateTables();
      Log(OpenJournal);
    }

    method IdentifyJournal()
      requires Valid() && w.Booting? && !journal.file.Absent?
      modifies this, journal
      ensures Valid() && Now() == OnOpenJournal(old(Now()))
    {
      hide Run, Created, ModelNext, ToolNext, LeavingNext, RecoveryNext, ControllerNext;
      journal.Identify();
      w := Idle;
      Log(OpenJournal);
    }

    /** A file whose process died between its tables and its identity is opened as it was left. */
    method OpenJournalFile() returns (alive: bool)
      requires Valid() && w.Booting?
      modifies this, journal, adapter
      ensures Valid() && calls == old(calls)
      ensures alive ==> w.Idle? && journal.Tables() == old(journal.Tables()).(file := Ready)
      ensures !alive ==> w.Down? && journal.Tables() == old(journal.Tables()).(file := Blank)
    {
      hide Run, Created, Inv, Next;
      alive := true;
      if journal.file.Absent? {
        CreateJournal();
        alive := Wait();
      }
      if alive {
        IdentifyJournal();
      }
    }

    method NoteStart()
      requires Valid() && w.Idle?
      modifies this, journal
      ensures Valid() && Now() == OnNote(old(Now()))
    {
      hide Run, Created, ModelNext, ToolNext, ProcessNext, RecoveryNext, ControllerNext;
      journal.AppendEvent(StartedEvent);
      Log(AppendStarted);
    }

    method BeginCorrecting(entries: seq<nat>)
      requires Valid() && w.Idle? && journal.terminal.None? && journal.nextStep in journal.models
          && journal.models[journal.nextStep].state.Responded? && journal.nextStep + 1 < spec.maxSteps
          && CorrectionEvent !in journal.events
      modifies this, journal
      ensures Valid() && Now() == OnBeginCorrection(old(Now()), entries)
    {
      hide Run, Created, ToolNext, ProcessNext, LeavingNext, RecoveryNext, ControllerNext;
      journal.AdvanceTo(journal.nextStep + 1, journal.history + entries);
      w := Correcting;
      Log(BeginCorrection(entries));
    }

    method NoteCorrection()
      requires Valid() && w.Correcting?
      modifies this, journal
      ensures Valid() && Now() == OnCorrect(old(Now()))
    {
      hide Run, Created, ModelNext, ToolNext, ProcessNext, RecoveryNext, ControllerNext;
      journal.AppendEvent(CorrectionEvent);
      w := Idle;
      Log(Correct);
    }

    method AcknowledgeEvent(n: nat)
      requires Valid()
      modifies this, journal
      ensures Valid() && Now() == OnAcknowledge(old(Now()), n) && Continues()
    {
      hide Run, Created, ModelNext, ToolNext, LeavingNext, RecoveryNext, ControllerNext;
      if n in adapter.inbox {
        journal.Acknowledge(n);
      }
      Log(Acknowledge(n));
    }

    method DeliverEvent(n: nat) returns (error: Option<string>)
      requires Valid() && 1 <= n <= |journal.events|
      modifies this, adapter
      ensures Valid() && Now() == OnDeliver(old(Now()), n)
      ensures origin == old(origin) && trace == old(trace) + [Deliver(n)]
      ensures if error.Some? then Now() == old(Now()) else adapter.inbox.Keys == old(adapter.inbox.Keys) + {n}
    {
      hide Run, Created, ModelNext, ToolNext, ProcessNext, LeavingNext, ControllerNext;
      ReceiveStores(spec, adapter.Rows(), n, journal.events[n - 1]);
      error := adapter.Receive(n, journal.events[n - 1]);
      Log(Deliver(n));
    }

    /** The row of the present step was opened for this history. */
    lemma RowFits()
      requires Valid()
      ensures journal.nextStep in journal.models ==>
          journal.models[journal.nextStep].request == journal.history && journal.nextStep < spec.maxSteps
    {
      hide Run, Created, Next, GrantInv, CallInv, EventInv, PhaseInv, AnswerInv, DeliveryInv, ToolInv, StopInv;
      Keeps();
      var s := Now();
      assert s.j.nextStep in s.j.models ==> RowOk(s.spec, s.j, s.c.grants, s.j.nextStep);
    }

    method OpenStepRow() returns (error: Option<string>)
      requires Valid() && w.Idle? && journal.terminal.None? && journal.nextStep < spec.maxSteps
      modifies this, journal
      ensures Valid() && Now() == OnStep(old(Now()))
      ensures error.None? ==>
          journal.nextStep in journal.models && OpenModel(old(journal.Tables()), journal.nextStep, journal.history)
          == Ok(journal.Tables())
      ensures old(journal.nextStep) in old(journal.models) ==> error.None? && journal.Tables() == old(journal.Tables())
    {
      hide Run, Created, ToolNext, ProcessNext, LeavingNext, RecoveryNext, ControllerNext;
      RowFits();
      error := journal.Model(journal.nextStep, journal.history);
      Log(OpenStep);
    }

    method GiveUp()
      requires Valid() && w.Idle? && journal.nextStep in journal.models
      modifies this, journal
      ensures Valid() && Now() == OnMarkLost(old(Now()))
    {
      hide Run, Created, ToolNext, ProcessNext, LeavingNext, RecoveryNext, ControllerNext;
      journal.ModelFailure(journal.nextStep, false);
      Log(MarkLost);
    }

    method RetryRow() returns (error: Option<string>)
      requires Valid() && w.Idle? && journal.nextStep in journal.models
          && journal.models[journal.nextStep].attempts <= spec.retries
      modifies this, journal
      ensures Valid() && Now() == OnRetry(old(Now()))
      ensures error.None? <==> Journal.RetryNotSent(old(journal.Tables()), old(journal.nextStep)).Ok?
    {
      hide Run, Created, ToolNext, ProcessNext, LeavingNext, RecoveryNext, ControllerNext;
      error := journal.RetryNotSent(journal.nextStep);
      Log(Retry);
    }

    method AskForPermit()
      requires Valid() && w.Idle? && journal.nextStep in journal.models
          && journal.models[journal.nextStep].state.Prepared?
      modifies this
      ensures Valid() && Now() == OnAsk(old(Now()))
    {
      hide Run, Created, ToolNext, ProcessNext, LeavingNext, RecoveryNext, ControllerNext;
      var k := journal.nextStep;
      w := Asking(k);
      rpc := if connected then AskPermit(k, journal.models[k].request) else NoRpc;
      Log(Ask);
    }

    method MarkRowSent() returns (error: Option<string>)
      requires Valid() && w.Permitted?
      modifies this, journal
      ensures Valid() && Now() == OnMarkSent(old(Now()))
      ensures error.None? <==> w.Armed?
    {
      hide Run, Created, ToolNext, ProcessNext, LeavingNext, RecoveryNext, ControllerNext;
      error := journal.ModelSent(w.step, w.permit);
      if error.None? {
        w := Armed(w.step, w.permit);
      }
      Log(MarkSent);
    }

    method Call()
      requires Valid() && w.Armed? && w.step in journal.models
      modifies this
      ensures Valid() && Now() == OnCallProvider(old(Now()))
    {
      hide Run, Created, ToolNext, ProcessNext, LeavingNext, RecoveryNext, ControllerNext;
      calls := calls + [ProviderCall(w.step, w.permit, journal.models[w.step].attempts, InDoubt)];
      w := Calling(w.step, w.permit);
      Log(CallProvider);
    }

    /** What the provider does with the call. */
    method AwaitProvider()
      requires Valid() && w.Calling?
      modifies this
      ensures Valid() && Now().j == old(Now()).j && rpc == old(rpc)
      ensures w.Answered? || w.Refused? || w.Lost?
      ensures w.step == old(w).step && w.permit == old(w).permit
      ensures calls == if w.Lost? then old(calls) else Judge(old(calls), Proof(w))
    {
      hide Run, Created, ToolNext, ProcessNext, LeavingNext, RecoveryNext, ControllerNext;
      if * {
        var response: Ledger.Response := *;
        w, calls := Answered(w.step, w.permit, response), Judge(calls, Delivered);
        Log(ProviderAnswers(response));
      } else if * {
        w, calls := Refused(w.step, w.permit), Judge(calls, ProvedUnsent);
        Log(ProviderRefuses);
      } else {
        w := Lost(w.step, w.permit);
        Log(ProviderFails);
      }
    }

    method RecordOutcome()
      requires Valid() && (w.Answered? || w.Refused? || w.Lost?)
      modifies this, journal
      ensures Valid() && Now() == OnRecord(old(Now()))
    {
      hide Run, Created, Next;
      RecordIsAMove(Now());
      match w {
        case Answered(k, _, response) =>
          var error := journal.ModelResponse(k, response);
          if error.None? { w := Idle; }
        case Refused(k, _) =>
          journal.ModelFailure(k, true);
          w := Idle;
        case Lost(k, _) =>
          journal.ModelFailure(k, false);
          w := Idle;
        case _ =>
      }
      Log(Record);
    }

    method Proceed(entries: seq<nat>)
      requires Valid() && w.Idle? && journal.terminal.None? && journal.nextStep in journal.models
          && journal.models[journal.nextStep].state.Responded?
      modifies this, journal
      ensures Valid() && Now() == OnNextStep(old(Now()), entries)
    {
      hide Run, Created, ToolNext, ProcessNext, LeavingNext, RecoveryNext, ControllerNext;
      journal.AdvanceTo(journal.nextStep + 1, journal.history + entries);
      Log(NextStep(entries));
    }

    method PrepareToolRow(id: ToolId, tool: Tool, args: nat) returns (error: Option<string>)
      requires Valid() && w.Idle? && journal.nextStep in journal.models
          && journal.models[journal.nextStep].state.Responded? && id.step == journal.nextStep
      modifies this, journal
      ensures Valid() && Now() == OnPrepareTool(old(Now()), id, tool, args)
      ensures error.None? ==> id in journal.tools && journal.tools[id].tool == tool
    {
      hide Run, Created, ModelNext, ProcessNext, LeavingNext, RecoveryNext, ControllerNext;
      error := journal.OpenTool(id, tool, args);
      Log(PrepareTool(id, tool, args));
    }

    method StartToolRow(id: ToolId) returns (error: Option<string>)
      requires Valid() && w.Idle? && id in journal.tools
      modifies this, journal
      ensures Valid() && Now() == OnBeginTool(old(Now()), id)
      ensures error.None? <==> w.RunningTool?
    {
      hide Run, Created, ModelNext, ProcessNext, LeavingNext, RecoveryNext, ControllerNext;
      if journal.tools[id].state.ToolStarted? && journal.tools[id].tool.SaveArtifact? {
        error := None;
      } else {
        error := journal.ToolStarted(id);
      }
      if error.None? {
        w := RunningTool(id);
      }
      Log(BeginTool(id));
    }

    /** A local tool runs here; a company command is sent to the controller. */
    method RunTool(success: bool, output: nat)
      requires Valid() && w.RunningTool? && w.id in journal.tools
      modifies this
      ensures Valid() && Now() == OnRunLocal(old(Now()), success, output)
    {
      hide Run, Created, ModelNext, ProcessNext, LeavingNext, RecoveryNext, ControllerNext;
      var id, tool := w.id, journal.tools[w.id].tool;
      if tool.Command? {
        w := Commanding(id);
        rpc := if connected then AskCommand(id) else NoRpc;
      } else {
        w := ToolFinished(id, ToolResult(id, tool, success, output));
        effects := effects + multiset{id};
      }
      Log(RunLocal(success, output));
    }

    method RecordToolResult() returns (error: Option<string>)
      requires Valid() && w.ToolFinished?
      modifies this, journal
      ensures Valid() && Now() == OnRecordTool(old(Now()))
      ensures error.None? <==> w.Idle?
    {
      hide Run, Created, ModelNext, ProcessNext, LeavingNext, RecoveryNext, ControllerNext;
      error := journal.ToolFinished(w.id, w.result);
      if error.None? {
        w := Idle;
      }
      Log(RecordTool);
    }

    /** The missing fact a tool addresses is exhausted: it fails without running. */
    method FailTool(id: ToolId)
      requires Valid() && w.Idle? && id in journal.tools
      requires journal.tools[id].state.ToolPrepared?
          || (journal.tools[id].state.ToolStarted? && journal.tools[id].tool.SaveArtifact?)
      modifies this, journal
      ensures Valid() && Now() == OnDenyTool(old(Now()), id)
      ensures journal.terminal == old(journal.terminal)
    {
      hide Run, Created, ModelNext, ProcessNext, LeavingNext, RecoveryNext, ControllerNext;
      var error := journal.ToolFinished(id, ToolResult(id, journal.tools[id].tool, false, 0));
      Log(DenyTool(id));
    }

    /** The controller's receipt of a command whose answer was lost. */
    method TakeReceipt(id: ToolId) returns (found: bool)
      requires Valid() && w.Idle? && connected && id in journal.tools && journal.tools[id].state.ToolStarted?
          && !journal.tools[id].tool.SaveArtifact?
      modifies this, journal
      ensures Valid() && Now() == OnFetchReceipt(old(Now()), id)
      ensures found == Receipted(old(adapter.Rows()), id, old(journal.tools)[id].tool)
    {
      hide Run, Created, ModelNext, ProcessNext, LeavingNext, RecoveryNext, ControllerNext;
      found := Receipted(adapter.Rows(), id, journal.tools[id].tool);
      if found {
        var error := journal.ToolFinished(id, adapter.commands[id].result.value);
      }
      Log(FetchReceipt(id));
    }

    method End(kind: AttemptState, why: string)
      requires Valid() && MayLeave(w) && rpc.NoRpc? && !Active(kind)
      modifies this, journal
      ensures Valid() && Now() == OnFinish(old(Now()), kind, why)
    {
      hide Run, Created, ModelNext, ToolNext, ProcessNext, RecoveryNext, ControllerNext;
      journal.FinishWith(kind, why);
      w := Down;
      Log(FinishRun(kind, why));
    }

    method SuspendRunFor(why: string)
      requires Valid() && MayLeave(w) && SuspendReason(why)
      modifies this, journal
      ensures Valid() && Now() == OnSuspend(old(Now()), why)
    {
      hide Run, Created, ModelNext, ToolNext, ProcessNext, RecoveryNext, ControllerNext;
      journal.SuspendFor(why);
      w := Down;
      Log(SuspendRun(why));
    }

    // ---- The loops ----

    /** Between steps the worker is idle, and nothing it asked for is pending. */
    lemma IdleIsQuiet()
      requires Valid() && w.Idle?
      ensures rpc.NoRpc?
    {
      hide Run, Created, Inv, Next;
      Keeps();
      CallPhase(Now());
    }

    /** Ships every event that is not acknowledged. An acknowledgement may be lost after the event was applied. */
    method Flush() returns (stop: Option<Stop>)
      requires Valid() && (w.Idle? || w.Down?)
      modifies this, journal, adapter
      ensures Valid() && Continues()
      ensures journal.Tables() == old(journal.Tables()).(acked := journal.acked) && calls == old(calls)
      ensures if stop == Some(Gone) then w.Down? else w == old(w)
    {
      hide Run, Created, Inv, Next;
      var pending := journal.Pending();
      for i := 0 to |pending|
        invariant Valid() && journal.Tables() == old(journal.Tables()).(acked := journal.acked)
        invariant w == old(w) && calls == old(calls) && Continues()
      {
        var alive := Wait();
        if !alive {
          return Some(Gone);
        }
        if * {
          return Some(Fault(DISCONNECTED));
        }
        assert pending[i] in pending;
        var error := DeliverEvent(pending[i]);
        if error.Some? {
          return Some(Fault(error.value));
        }
        if * {
          return Some(Fault(DISCONNECTED));
        }
        AcknowledgeEvent(pending[i]);
      }
      stop := None;
    }

    /** What an interruption of the loop leaves behind: a dead process, or one that can still write its last event. */
    ghost predicate Stopped(stop: Stop)
      reads this, journal, adapter
    {
      Valid() && if stop.Gone? then w.Down? else MayLeave(w) && (rpc.NoRpc? || SuspendReason(stop.code))
    }

    method FlushIdle() returns (stop: Option<Stop>)
      requires Valid() && w.Idle?
      modifies this, journal, adapter
      ensures Valid() && journal.Tables() == old(journal.Tables()).(acked := journal.acked) && calls == old(calls)
      ensures Continues()
      ensures if stop.Some? then Stopped(stop.value) else w.Idle?
    {
      hide Run, Created, Inv, Next;
      stop := Flush();
      if stop != Some(Gone) {
        IdleIsQuiet();
      }
    }

    /** Asks for a permit and waits for the answer. */
    method Authorize() returns (stop: Option<Stop>)
      requires Valid() && w.Idle? && journal.nextStep in journal.models
          && journal.models[journal.nextStep].state.Prepared?
      modifies this, adapter
      ensures Valid() && journal.Tables() == old(journal.Tables()) && calls == old(calls)
      ensures stop.Some? ==> Stopped(stop.value)
      ensures stop.None? ==> w.Permitted? && w.step == journal.nextStep
    {
      hide Run, Created, Inv, Next;
      AskForPermit();
      var alive := Pass();
      if !alive {
        return Some(Gone);
      }
      if w.Asking? {
        return Some(Fault(DISCONNECTED));
      }
      if w.Idle? {
        IdleIsQuiet();
        var code: string := *;
        return Some(Fault(code));
      }
      if * {
        PermittedIsQuiet();
        return Some(Fault("OWNER_PROGRESS_TIME_LIMIT"));
      }
      stop := None;
    }

    lemma PermittedIsQuiet()
      requires Valid() && w.Permitted?
      ensures rpc.NoRpc? && w.step in journal.models && journal.models[w.step].state.Prepared?
    {
      hide Run, Created, Inv, Next;
      Keeps();
      CallPhase(Now());
    }

    lemma AttemptsAreFew(k: nat)
      requires Valid() && k in journal.models
      ensures journal.models[k].attempts <= spec.retries + 1 && spec.retries <= 1
      ensures journal.models[k].state.Prepared? ==> journal.models[k].attempts <= spec.retries
    {
      hide Run, Created, Inv, Next;
      Keeps();
      FewAttempts(Now(), k);
    }

    /** Marks the row sent with the permit. */
    method Mark() returns (alive: bool)
      requires Valid() && w.Permitted? && w.step == journal.nextStep && w.step in journal.models
          && journal.models[w.step].state.Prepared?
      modifies this, journal, adapter
      ensures Valid() && calls == old(calls)
      ensures journal.terminal == old(journal.terminal)
      ensures if alive then w == Armed(old(w).step, old(w).permit) else w.Down?
      ensures alive ==>
        var k := old(journal.nextStep);
        journal.Tables() == old(journal.Tables()).(models :=
             old(journal.models)[k := old(journal.models)[k].(state := CallSent, permit := Some(old(w).permit),
                 attempts := old(journal.models)[k].attempts + 1)])
    {
      hide Run, Created, Inv, Next;
      alive := Wait();
      if !alive {
        return;
      }
      var error := MarkRowSent();
      alive := Wait();
    }

    /** Marks the row sent, and only then calls the provider. */
    method Send() returns (alive: bool)
      requires Valid() && w.Permitted? && w.step == journal.nextStep && w.step in journal.models
          && journal.models[w.step].state.Prepared?
      modifies this, journal, adapter
      ensures Valid()
      ensures journal.terminal == old(journal.terminal)
      ensures !alive ==> w.Down?
      ensures alive ==>
        var k, permit := old(journal.nextStep), old(w).permit;
        && (w.Answered? || w.Refused? || w.Lost?) && w.step == k
        && calls == old(calls) + [ProviderCall(k, permit, old(journal.models)[k].attempts + 1, Proof(w))]
        && journal.Tables() == old(journal.Tables()).(models :=
             old(journal.models)[k := old(journal.models)[k].(state := CallSent, permit := Some(permit),
                 attempts := old(journal.models)[k].attempts + 1)])
    {
      hide Run, Created, Inv, Next;
      alive := Mark();
      if !alive {
        return;
      }
      Call();
      AwaitProvider();
      alive := Wait();
    }

    /** Records what became of the call, with the event that says so. */
    method Settle() returns (lost: bool, sent: bool)
      requires Valid() && (w.Answered? || w.Refused? || w.Lost?) && w.step in journal.models
      requires journal.models[w.step].state.CallSent? && journal.models[w.step].permit.Some?
      modifies this, journal
      ensures Valid() && w.Idle? && lost == old(w).Lost? && sent == old(w).Answered? && calls == old(calls)
      ensures journal.nextStep == old(journal.nextStep) && journal.terminal == old(journal.terminal)
      ensures
        var k := old(w).step;
        k in journal.models && journal.models[k].attempts == old(journal.models)[k].attempts
        && journal.models[k].state == (if sent then Responded else if lost then CallUnknown else CallNotSent)
      ensures
        var k := old(w).step;
        var permit := old(journal.models)[k].permit.value;
        journal.events == old(journal.events) + [
            if old(w).Answered? then AnswerEvent(k, permit, old(w).response) else FailureEvent(k, permit, !lost)]
    {
      hide Run, Created, Inv, Next;
      lost, sent := w.Lost?, w.Answered?;
      RecordOutcome();
    }

    /** One transport of the current step. */
    method Transport() returns (stop: Option<Stop>, sent: bool)
      requires Valid() && w.Permitted? && w.step == journal.nextStep
      modifies this, journal, adapter
      ensures Valid()
      ensures journal.terminal == old(journal.terminal)
      ensures stop.Some? ==> Stopped(stop.value)
      ensures old(journal.nextStep) in old(journal.models)
      ensures stop.None? ==>
        var k := old(journal.nextStep);
        && w.Idle? && k in journal.models && journal.models[k].attempts == old(journal.models)[k].attempts + 1
        && journal.models[k].state == (if sent then Responded else CallNotSent)
        && journal.nextStep == k && journal.terminal == old(journal.terminal)
        && calls == old(calls) + [ProviderCall(k, old(w).permit, journal.models[k].attempts,
                                               if sent then Delivered else ProvedUnsent)]
    {
      hide Run, Created, Inv, Next;
      PermittedIsQuiet();
      var alive := Send();
      if !alive {
        return Some(Gone), false;
      }
      var lost;
      lost, sent := Settle();
      IdleIsQuiet();
      var code: string := *;
      return if lost then Some(Fault(code)) else None, sent;
    }

    /** Makes a row that was proved unsent ready for one more transport. */
    method PrepareRetry() returns (stop: Option<Stop>)
      requires Valid() && w.Idle? && journal.nextStep in journal.models
          && journal.models[journal.nextStep].state.CallNotSent?
      modifies this, journal, adapter
      ensures Valid() && calls == old(calls)
      ensures journal.terminal == old(journal.terminal)
      ensures stop.Some? ==> Stopped(stop.value)
      ensures old(journal.models)[old(journal.nextStep)].attempts > spec.retries <==>
          stop == Some(Fault("OWNER_MODEL_NOT_SENT"))
      ensures stop.None? ==>
        var k := old(journal.nextStep);
        w.Idle? && journal.Tables() == old(journal.Tables()).(models :=
            old(journal.models)[k := old(journal.models)[k].(state := Prepared)])
    {
      hide Run, Created, Inv, Next;
      AttemptsAreFew(journal.nextStep);
      IdleIsQuiet();
      if journal.models[journal.nextStep].attempts > spec.retries {
        return Some(Fault("OWNER_MODEL_NOT_SENT"));
      }
      var alive := Wait();
      if !alive {
        return Some(Gone);
      }
      var error := RetryRow();
      stop := None;
    }

    /** One turn of the retry loop. */
    method Attempt() returns (stop: Option<Stop>)
      requires Valid() && w.Idle? && journal.terminal.None? && journal.nextStep in journal.models
      requires journal.models[journal.nextStep].state.Prepared? || journal.models[journal.nextStep].state.CallNotSent?
      modifies this, journal, adapter
      ensures Valid()
      ensures journal.terminal == old(journal.terminal)
      ensures stop.Some? ==> Stopped(stop.value)
      ensures stop.None? ==>
        var k := old(journal.nextStep);
        && w.Idle? && journal.terminal.None? && journal.nextStep == k && k in journal.models
        && (journal.models[k].state.Responded? || journal.models[k].state.CallNotSent?)
        && old(journal.models)[k].attempts + 1 == journal.models[k].attempts <= spec.retries + 1
        && |calls| == |old(calls)| + 1 && calls[..|old(calls)|] == old(calls)
        && calls[|old(calls)|].verdict.Delivered? == journal.models[k].state.Responded?
      ensures ExhaustedAt(old(journal.Tables()), old(journal.nextStep), spec.retries) ==>
          stop == Some(Fault("OWNER_MODEL_NOT_SENT")) && calls == old(calls)
    {
      hide Run, Created, Inv, Next;
      var k := journal.nextStep;
      if journal.models[k].state.CallNotSent? {
        stop := PrepareRetry();
        if stop.Some? {
          return;
        }
      }
      stop := Authorize();
      if stop.Some? {
        return;
      }
      var sent;
      stop, sent := Transport();
      if stop.Some? {
        return;
      }
      AttemptsAreFew(k);
      if !sent {
        stop := FlushIdle();
      }
    }

    /** Brings the row of the current step to its response, with one retry for a call proved unsent. */
    method CallModel() returns (stop: Option<Stop>)
      requires Valid() && w.Idle? && journal.terminal.None? && journal.nextStep in journal.models
      modifies this, journal, adapter
      ensures Valid()
      ensures journal.terminal == old(journal.terminal)
      ensures stop.Some? ==> Stopped(stop.value)
      ensures stop.None? ==>
        && w.Idle? && journal.nextStep == old(journal.nextStep) && journal.terminal.None?
        && journal.nextStep in journal.models && journal.models[journal.nextStep].state.Responded?
        && (old(journal.models)[journal.nextStep].state.Responded? ==> calls == old(calls))
      ensures
        var row := old(journal.models)[old(journal.nextStep)];
        row.state.CallSent? || row.state.CallUnknown? ==>
          stop == Some(Fault("CALL_OUTCOME_UNKNOWN")) && calls == old(calls)
      ensures ExhaustedAt(old(journal.Tables()), old(journal.nextStep), spec.retries) ==>
          stop == Some(Fault("OWNER_MODEL_NOT_SENT")) && calls == old(calls)
    {
      hide Run, Created, Inv, Next;
      var k := journal.nextStep;
      IdleIsQuiet();
      if journal.models[k].state.CallSent? {
        GiveUp();
        IdleIsQuiet();
        return Some(Fault("CALL_OUTCOME_UNKNOWN"));
      }
      if journal.models[k].state.CallUnknown? {
        return Some(Fault("CALL_OUTCOME_UNKNOWN"));
      }
      AttemptsAreFew(k);
      while !journal.models[k].state.Responded?
        invariant Valid() && w.Idle? && journal.terminal.None? && journal.nextStep == k && k in journal.models
        invariant journal.models[k].state.Prepared? || journal.models[k].state.CallNotSent?
            || journal.models[k].state.Responded?
        invariant journal.models[k].attempts <= spec.retries + 1
        invariant old(journal.models)[k].state.Responded? ==> journal.models[k].state.Responded? && calls == old(calls)
        invariant ExhaustedAt(old(journal.Tables()), k, spec.retries) ==>
            ExhaustedAt(journal.Tables(), k, spec.retries) && calls == old(calls)
        decreases spec.retries + 1 - journal.models[k].attempts
      {
        stop := Attempt();
        if stop.Some? {
          return;
        }
      }
      stop := None;
    }

    // ---- Tools ----

    lemma ToolPhases(id: ToolId)
      requires Valid()
      ensures w.RunningTool? ==> w.id in journal.tools && journal.tools[w.id].state.ToolStarted? && rpc.NoRpc?
      ensures w.ToolFinished? ==> w.id in journal.tools && journal.tools[w.id].state.ToolStarted? && rpc.NoRpc?
      ensures id in journal.tools && !journal.tools[id].state.ToolDone? ==> journal.tools[id].result.None?
    {
      hide Run, Created, Inv, Next;
      Keeps();
      ToolPhase(Now(), id);
    }

    /** What a finished tool leaves: nothing of the model step has changed. */
    ghost predicate SameStep(j: Rows, t: Rows) {
      && t.models == j.models && t.nextStep == j.nextStep && t.history == j.history && t.terminal == j.terminal
      && forall id :: Done(j, id) ==> Done(t, id) && t.tools[id] == j.tools[id]
    }

    /** Runs a started tool here, or sends it to the controller and waits. */
    method RunStarted() returns (stop: Option<Stop>)
      requires Valid() && w.RunningTool? && w.id in journal.tools
      modifies this, journal, adapter
      ensures Valid() && journal.Tables() == old(journal.Tables())
      ensures stop.Some? ==> Stopped(stop.value)
      ensures stop.None? ==> w.ToolFinished? && w.id == old(w).id
    {
      hide Run, Created, Inv, Next;
      var success: bool, output: nat, code: string := *, *, *;
      RunTool(success, output);
      var alive := Pass();
      if !alive {
        return Some(Gone);
      }
      if w.Commanding? {
        return Some(Fault(DISCONNECTED));
      }
      if w.Idle? {
        IdleIsQuiet();
        return Some(Fault(code));
      }
      if * {
        ToolPhases(w.id);
        return Some(Fault(code));
      }
      stop := None;
    }

    /** Runs a started tool and records its result. */
    method RunAndRecord(id: ToolId) returns (stop: Option<Stop>)
      requires Valid() && w == RunningTool(id) && id in journal.tools && journal.tools[id].state.ToolStarted?
      modifies this, journal, adapter
      ensures Valid()
      ensures journal.terminal == old(journal.terminal)
      ensures stop.Some? ==> Stopped(stop.value) && journal.Tables() == old(journal.Tables())
      ensures stop.None? ==> w.Idle? && SameStep(old(journal.Tables()), journal.Tables()) && Done(journal.Tables(), id)
    {
      hide Run, Created, Inv, Next;
      stop := RunStarted();
      if stop.Some? {
        return;
      }
      ToolPhases(id);
      var error := RecordToolResult();
    }

    /** Starts a tool, runs it and records its result. */
    method Execute(id: ToolId) returns (stop: Option<Stop>)
      requires Valid() && w.Idle? && id in journal.tools && !journal.tools[id].state.ToolDone?
      requires journal.tools[id].state.ToolStarted? ==> journal.tools[id].tool.SaveArtifact?
      modifies this, journal, adapter
      ensures Valid()
      ensures journal.terminal == old(journal.terminal)
      ensures stop.Some? ==> Stopped(stop.value)
      ensures id in journal.tools && !journal.tools[id].state.ToolPrepared?
      ensures stop.None? ==> w.Idle? && SameStep(old(journal.Tables()), journal.Tables()) && Done(journal.Tables(), id)
    {
      hide Run, Created, Inv, Next;
      var error := StartToolRow(id);
      var alive := Wait();
      if !alive {
        return Some(Gone);
      }
      ToolPhases(id);
      stop := RunAndRecord(id);
    }

    /** One requested operation, from wherever its row says it was left. */
    method Operate(id: ToolId, tool: Tool, args: nat) returns (stop: Option<Stop>)
      requires Valid() && w.Idle? && journal.nextStep in journal.models
          && journal.models[journal.nextStep].state.Responded? && id.step == journal.nextStep
      modifies this, journal, adapter
      ensures Valid()
      ensures journal.terminal == old(journal.terminal)
      ensures stop.Some? ==> Stopped(stop.value)
      ensures stop.None? ==> w.Idle? && SameStep(old(journal.Tables()), journal.Tables()) && Done(journal.Tables(), id)
      ensures stop.None? && Done(old(journal.Tables()), id) ==> journal.Tables() == old(journal.Tables())
    {
      hide Run, Created, Inv, Next;
      IdleIsQuiet();
      var error := PrepareToolRow(id, tool, args);
      if error.Some? {
        return Some(Fault("OWNER_WORKER_OPERATION_CONFLICT"));
      }
      var row := journal.tools[id];
      if row.state.ToolDone? {
        return None;
      }
      if row.state.ToolStarted? && !row.tool.SaveArtifact? {
        stop := Recollect(id);
        return;
      }
      stop := AuthorizeAndRun(id);
    }

    /** The controller lets the tool run, or says that it may not, or that it need not be tried. */
    method AuthorizeAndRun(id: ToolId) returns (stop: Option<Stop>)
      requires Valid() && w.Idle? && id in journal.tools && !journal.tools[id].state.ToolDone?
      requires journal.tools[id].state.ToolStarted? ==> journal.tools[id].tool.SaveArtifact?
      modifies this, journal, adapter
      ensures Valid()
      ensures journal.terminal == old(journal.terminal)
      ensures stop.Some? ==> Stopped(stop.value)
      ensures stop.None? ==> w.Idle? && SameStep(old(journal.Tables()), journal.Tables()) && Done(journal.Tables(), id)
    {
      hide Run, Created, Inv, Next;
      IdleIsQuiet();
      if * {
        FailTool(id);
      } else if * {
        var code: string := *;
        return Some(Fault(code));
      } else {
        stop := Execute(id);
        if stop.Some? {
          return;
        }
      }
      stop := FlushIdle();
    }

    /** A tool started by an earlier process is never run again: only the controller's receipt can finish it. */
    method Recollect(id: ToolId) returns (stop: Option<Stop>)
      requires Valid() && w.Idle? && id in journal.tools && journal.tools[id].state.ToolStarted?
          && !journal.tools[id].tool.SaveArtifact?
      modifies this, journal, adapter
      ensures Valid()
      ensures journal.terminal == old(journal.terminal)
      ensures stop.Some? ==> Stopped(stop.value)
      ensures stop.None? ==> w.Idle? && SameStep(old(journal.Tables()), journal.Tables()) && Done(journal.Tables(), id)
      ensures stop.None? ==>
        id in adapter.commands && adapter.commands[id].result.Some?
        && journal.tools[id].result == adapter.commands[id].result
    {
      hide Run, Created, Inv, Next;
      IdleIsQuiet();
      var alive := Wait();
      if !alive {
        return Some(Gone);
      }
      if !connected {
        return Some(Fault(DISCONNECTED));
      }
      var found := TakeReceipt(id);
      if !found {
        IdleIsQuiet();
        return Some(Fault("TOOL_OUTCOME_UNKNOWN"));
      }
      ghost var taken := trace;
      stop := FlushIdle();
      StoredReceipt(taken, id);
    }

    /** A receipt that was stored is stored still, and the journal holds no other result. */
    lemma StoredReceipt(before: seq<Move>, id: ToolId)
      requires Valid() && before <= trace
      requires id in Run(origin, before).c.commands && Run(origin, before).c.commands[id].result.Some?
      requires Done(journal.Tables(), id)
      ensures id in adapter.commands && adapter.commands[id].result.Some?
      ensures journal.tools[id].result == adapter.commands[id].result
    {
      hide Run, Created;
      assert before + trace[|before|..] == trace;
      ReplaysReturnTheStoredReceipt(origin, before, trace[|before|..], id);
    }

    // ---- The whole execution ----

    /** The model's answer cannot be read: it is asked once to correct its format, if its specification allows that. */
    method CorrectFormat(entries: seq<nat>, allowed: bool) returns (stop: Option<Stop>)
      requires Valid() && w.Idle? && journal.terminal.None? && journal.nextStep in journal.models
          && journal.models[journal.nextStep].state.Responded?
      modifies this, journal, adapter
      ensures Valid()
      ensures journal.terminal == old(journal.terminal)
      ensures stop.Some? ==> Stopped(stop.value)
      ensures stop.None? ==> w.Idle? && journal.terminal.None? && journal.nextStep == old(journal.nextStep) + 1
      ensures calls == old(calls)
      ensures stop.None? ==>
        && allowed && CorrectionEvent !in old(journal.events) && journal.nextStep < spec.maxSteps
        && journal.history == old(journal.history) + entries
        && journal.events == old(journal.events) + [AdvanceEvent(journal.nextStep), CorrectionEvent]
      ensures !allowed || CorrectionEvent in old(journal.events) || old(journal.nextStep) + 1 >= spec.maxSteps ==>
        stop == Some(Fault("MODEL_RESPONSE_INVALID"))
    {
      hide Run, Created, Inv, Next;
      IdleIsQuiet();
      if !allowed || CorrectionEvent in journal.events || journal.nextStep + 1 >= spec.maxSteps {
        return Some(Fault("MODEL_RESPONSE_INVALID"));
      }
      BeginCorrecting(entries);
      var alive := Wait();
      if !alive {
        return Some(Gone);
      }
      NoteCorrection();
      stop := FlushIdle();
    }

    /** Writes the last event and ships it. */
    method Conclude(kind: AttemptState, why: string)
      requires Valid() && MayLeave(w) && rpc.NoRpc? && !Active(kind)
      modifies this, journal, adapter
      ensures Valid() && w.Down? && calls == old(calls)
      ensures journal.terminal == if old(journal.terminal).Some? then old(journal.terminal) else Some(kind)
      ensures old(journal.terminal).None? ==>
          journal.events == old(journal.events) + [FinishEvent(kind, why)] && EndsWith(journal.Tables(), kind, why)
    {
      hide Run, Created, Inv, Next;
      End(kind, why);
      var stop := Flush();
    }

    /** One step: the model's answer, the tools it asks for, and the new checkpoint. */
    method ExecuteStep() returns (stop: Option<Stop>, ended: bool)
      requires Valid() && w.Idle? && journal.terminal.None? && journal.nextStep < spec.maxSteps
      modifies this, journal, adapter
      ensures Valid()
      ensures stop.Some? ==> journal.terminal.None?
      ensures stop.Some? ==> Stopped(stop.value)
      ensures stop.None? && ended ==> w.Down? && Finished(journal.Tables())
      ensures stop.None? && !ended ==>
          w.Idle? && journal.terminal.None? && journal.nextStep == old(journal.nextStep) + 1
      ensures InDoubtAt(old(journal.Tables()), old(journal.nextStep)) ==>
          stop == Some(Fault("CALL_OUTCOME_UNKNOWN")) && calls == old(calls)
      ensures ExhaustedAt(old(journal.Tables()), old(journal.nextStep), spec.retries) ==>
          stop == Some(Fault("OWNER_MODEL_NOT_SENT")) && calls == old(calls)
    {
      hide Run, Created, Inv, Next;
      ended := false;
      IdleIsQuiet();
      var error := OpenStepRow();
      if error.Some? {
        return Some(Fault(error.value)), false;
      }
      stop := CallModel();
      if stop.Some? {
        return;
      }
      stop := FlushIdle();
      if stop.Some? {
        return;
      }
      var entries: seq<nat>, readable: bool, allowed: bool := *, *, *;
      if !readable {
        stop := CorrectFormat(entries, allowed);
        return;
      }
      var operations: seq<(Tool, nat)> := *;
      stop := Operations(operations);
      if stop.Some? {
        return;
      }
      var reply: bool, again: bool := *, *;
      stop, ended := CloseStep(entries, operations == [], reply, again);
    }

    /** A final report ends the execution; otherwise the checkpoint moves on. */
    method CloseStep(entries: seq<nat>, idle: bool, reply: bool, again: bool) returns (stop: Option<Stop>, ended: bool)
      requires Valid() && w.Idle? && journal.terminal.None? && journal.nextStep in journal.models
          && journal.models[journal.nextStep].state.Responded?
      modifies this, journal, adapter
      ensures Valid()
      ensures stop.Some? ==> journal.terminal.None?
      ensures stop.Some? ==> Stopped(stop.value)
      ensures stop.None? && !ended ==>
          w.Idle? && journal.terminal.None? && journal.nextStep == old(journal.nextStep) + 1
      ensures calls == old(calls)
      ensures stop.None? ==> ended == (!again && (reply || idle))
      ensures stop.None? && ended ==>
          w.Down? && EndsWith(journal.Tables(), if reply then Completed else Blocked, if reply then ""
              else "OWNER_NO_REPLY")
      ensures stop.None? && !ended ==> journal.history == old(journal.history) + entries
    {
      hide Run, Created, Inv, Next;
      ended := false;
      IdleIsQuiet();
      if reply && !again {
        Conclude(Completed, "");
        return None, true;
      }
      Proceed(entries);
      stop := FlushIdle();
      if stop.Some? {
        return;
      }
      if idle && !again {
        IdleIsQuiet();
        Conclude(Blocked, "OWNER_NO_REPLY");
        return None, true;
      }
    }

    method Operations(operations: seq<(Tool, nat)>) returns (stop: Option<Stop>)
      requires Valid() && w.Idle? && journal.nextStep in journal.models
          && journal.models[journal.nextStep].state.Responded?
      modifies this, journal, adapter
      ensures Valid()
      ensures journal.terminal == old(journal.terminal)
      ensures stop.Some? ==> Stopped(stop.value)
      ensures stop.None? ==> w.Idle? && SameStep(old(journal.Tables()), journal.Tables())
      ensures stop.None? ==> forall i: nat :: i < |operations| ==> Done(journal.Tables(), ToolId(journal.nextStep, i))
    {
      hide Run, Created, Inv, Next;
      for index := 0 to |operations|
        invariant Valid() && w.Idle? && SameStep(old(journal.Tables()), journal.Tables())
        invariant forall i: nat :: i < index ==> Done(journal.Tables(), ToolId(journal.nextStep, i))
      {
        stop := Operate(ToolId(journal.nextStep, index), operations[index].0, operations[index].1);
        if stop.Some? {
          return;
        }
      }
      stop := None;
    }

    /** The process ends; what it leaves behind is its journal. */
    method Exit()
      requires Valid()
      modifies this
      ensures Valid() && w.Down? && journal.Tables() == old(journal.Tables()) && calls == old(calls)
    {
      hide Run, Created, Inv, Next;
      CrashIsAMove(Now());
      w := Down;
      Log(Crash);
    }

    /** The `catch` of the loop. */
    method Leave(code: string) returns (ending: Ending)
      requires Valid() && MayLeave(w) && (rpc.NoRpc? || SuspendReason(code))
      modifies this, journal, adapter
      ensures Valid() && w.Down?
      ensures calls == old(calls)
      ensures SuspendReason(code) ==>
        && ending == SuspendedBy(code) && LastSuspension(journal.events) == Some(code)
        && journal.events == old(journal.events) + [SuspensionEvent(old(journal.nextStep), code)]
        && journal.terminal == old(journal.terminal)
      ensures !SuspendReason(code) ==> ending == Ended
      ensures !SuspendReason(code) && old(journal.terminal).Some? ==> journal.terminal == old(journal.terminal)
      ensures !SuspendReason(code) && old(journal.terminal).None? ==>
        && |journal.events| == |old(journal.events)| + 1
        && (ForTheOwner(code) ==> EndsWith(journal.Tables(), Blocked, code))
        && (!ForTheOwner(code) ==> EndsWith(journal.Tables(), Failed,
              if code == "MODEL_RESPONSE_INVALID" then code else "OWNER_WORKER_FAILED"))
    {
      hide Run, Created, Inv, Next;
      if SuspendReason(code) {
        SuspendRunFor(code);
        return SuspendedBy(code);
      }
      EndIs(code);
      Conclude(EndFor(code), ReasonFor(code));
      return Ended;
    }

    /** Opens the journal and ships what an earlier process left in it. A finished attempt is not begun again. */
    method Begin() returns (stop: Option<Stop>, finished: bool)
      requires Valid() && w.Booting?
      modifies this, journal, adapter
      ensures Valid() && calls == old(calls) && journal.terminal == old(journal.terminal)
      ensures finished ==> w.Down? && journal.terminal.Some?
      ensures stop.Some? ==> !finished && Stopped(stop.value)
      ensures stop.None? && !finished ==> w.Idle? && journal.terminal.None? && StartedEvent in journal.events
      ensures journal.models == old(journal.models) && journal.nextStep == old(journal.nextStep)
    {
      hide Run, Created, Inv, Next;
      finished := false;
      var alive := OpenJournalFile();
      if !alive {
        return Some(Gone), false;
      }
      stop := FlushIdle();
      if stop.Some? {
        return;
      }
      if journal.terminal.Some? {
        Exit();
        return None, true;
      }
      if StartedEvent !in journal.events {
        NoteStart();
        stop := FlushIdle();
      }
    }

    /** The loop over the steps, until the attempt is finished or something stops it. */
    method RunSteps() returns (stop: Option<Stop>)
      requires Valid() && w.Idle? && journal.terminal.None?
      modifies this, journal, adapter
      ensures Valid()
      ensures stop.Some? ==> Stopped(stop.value) && journal.terminal.None?
      ensures stop.None? ==> w.Down? && Finished(journal.Tables())
      ensures InDoubtAt(old(journal.Tables()), old(journal.nextStep)) ==>
          stop == Some(Fault("CALL_OUTCOME_UNKNOWN")) && calls == old(calls)
      ensures ExhaustedAt(old(journal.Tables()), old(journal.nextStep), spec.retries) ==>
          stop == Some(Fault("OWNER_MODEL_NOT_SENT")) && calls == old(calls)
    {
      hide Run, Created, Inv, Next;
      RowFits();
      ghost var began := Now();
      while journal.nextStep < spec.maxSteps
        invariant Valid() && w.Idle? && journal.terminal.None?
        invariant Now() == began
            || (!InDoubtAt(began.j, began.j.nextStep) && !ExhaustedAt(began.j, began.j.nextStep, spec.retries))
        decreases spec.maxSteps - journal.nextStep
      {
        var ended;
        stop, ended := ExecuteStep();
        if stop.Some? || ended {
          return;
        }
      }
      IdleIsQuiet();
      Conclude(Blocked, "OWNER_EXECUTION_STEP_LIMIT");
      return None;
    }

    /** The whole life of a worker process, from its start to its end or its death. `begun` says that it came to the
        loop, `fault` is the exception that left it. An attempt not finished before ends completed or blocked by the
        loop itself; by an exception it is suspended for a reason of the controller, blocked when the owner must look,
        failed for anything else, and the last event says which and why. A call in doubt, or one proved unsent too
        often, ends it that way without another call. */
    method ExecuteCompanyWorker() returns (ending: Ending, ghost begun: bool, ghost fault: Option<string>)
      requires Valid() && w.Booting?
      modifies this, journal, adapter
      ensures Valid() && w.Down?
      ensures ending.SuspendedBy? ==>
          SuspendReason(ending.reason) && LastSuspension(journal.events) == Some(ending.reason)
      ensures ending.Ended? ==> journal.terminal.Some?
      ensures old(journal.terminal).Some? ==> journal.terminal == old(journal.terminal) && calls == old(calls)
      ensures fault.Some? ==> if SuspendReason(fault.value) then ending == SuspendedBy(fault.value) else ending == Ended
      ensures ending.SuspendedBy? ==> fault == Some(ending.reason)
      ensures ending.Ended? && fault.None? && old(journal.terminal).None? ==> Finished(journal.Tables())
      ensures ending.Ended? && fault.Some? && old(journal.terminal).None? ==>
        && (ForTheOwner(fault.value) ==> EndsWith(journal.Tables(), Blocked, fault.value))
        && (!ForTheOwner(fault.value) ==> EndsWith(journal.Tables(), Failed,
              if fault.value == "MODEL_RESPONSE_INVALID" then fault.value else "OWNER_WORKER_FAILED"))
      ensures begun && InDoubtAt(old(journal.Tables()), old(journal.nextStep)) ==>
        ending == Ended && EndsWith(journal.Tables(), Blocked, "CALL_OUTCOME_UNKNOWN") && calls == old(calls)
      ensures begun && ExhaustedAt(old(journal.Tables()), old(journal.nextStep), spec.retries) ==>
        ending == Ended && EndsWith(journal.Tables(), Blocked, "OWNER_MODEL_NOT_SENT") && calls == old(calls)
    {
      hide Run, Created, Inv, Next;
      var stop, finished := Begin();
      begun, fault := stop.None? && !finished, None;
      if finished {
        return Ended, begun, fault;
      }
      if stop.None? {
        stop := RunSteps();
        if stop.None? {
          return Ended, begun, fault;
        }
      }
      if stop.value.Gone? {
        return Dead, begun, fault;
      }
      fault := Some(stop.value.code);
      ending := Leave(stop.value.code);
    }

    // ---- The controller's hold on the process ----

    /** A company command, in the controller. An operation it knows is answered from its row and has no second effect.
        For a new one, which only the worker's request brings, the effect of a synchronous handler and its receipt are
        one transaction; an asynchronous handler's effect precedes its receipt, and the controller may die in between.
        `denied` is the verdict of the checks before it. */
    method ExecuteCommand(id: ToolId, tool: Tool, args: nat, denied: Option<string>, success: bool, output: nat)
      returns (answer: CommandAnswer)
      requires Valid()
      requires id !in adapter.commands ==>
        && rpc == AskCommand(id) && id in journal.tools && tool.Command?
        && journal.tools[id].tool == tool && journal.tools[id].args == args
      modifies this, adapter
      ensures Valid() && journal.Tables() == old(journal.Tables())
      ensures denied.Some? ==>
        answer == Denied(denied.value) && adapter.commands == old(adapter.commands) && effects == old(effects)
      ensures denied.None? && id in old(adapter.commands) ==>
        Now() == old(Now()) && answer == RepeatedCommand(old(adapter.Rows()), old(rpc), id, tool, args)
      ensures denied.None? && id !in old(adapter.commands) && tool.synchronous ==>
        && answer == Stored(ToolResult(id, tool, success, output))
        && effects == if success then old(effects) + multiset{id} else old(effects)
      ensures denied.None? && answer.Stored? ==>
        id in adapter.commands && adapter.commands[id].result == Some(answer.result)
    {
      hide Run, Created;
      if denied.Some? {
        if id !in adapter.commands {
          RefuseTheCommand();
        }
        return Denied(denied.value);
      }
      if id in adapter.commands {
        var row := adapter.commands[id];
        if row.tool != tool || row.args != args {
          return Denied("IDEMPOTENCY_CONFLICT");
        }
        if row.result.Some? {
          return Stored(row.result.value);
        }
        return if rpc == AskCommand(id) then InProgress else Denied("TOOL_OUTCOME_UNKNOWN");
      }
      AcceptTheCommand();
      if !tool.synchronous && success {
        TakeEffect();
        if * {
          return InProgress;
        }
      }
      Receipt(success, output);
      return Stored(ToolResult(id, tool, success, output));
    }

    method RefuseTheCommand()
      requires Valid() && rpc.AskCommand? && rpc.id !in adapter.commands
      modifies this, adapter
      ensures Valid() && Now() == OnRefuseCommand(old(Now()))
    {
      hide Run, Created, ModelNext, ToolNext, LeavingNext, RecoveryNext, ControllerNext;
      if w == Commanding(rpc.id) {
        w := Idle;
      }
      rpc := NoRpc;
      Log(RefuseCommand);
    }

    method AcceptTheCommand()
      requires Valid() && rpc.AskCommand? && rpc.id in journal.tools && rpc.id !in adapter.commands
      modifies this, adapter
      ensures Valid() && Now() == OnAcceptCommand(old(Now()))
    {
      hide Run, Created, ModelNext, ToolNext, LeavingNext, RecoveryNext, ControllerNext;
      var row := journal.tools[rpc.id];
      adapter.commands := adapter.commands[rpc.id := CommandRow(row.tool, row.args, false, None)];
      Log(AcceptCommand);
    }

    method TakeEffect()
      requires Valid() && InFlight(Now()) && adapter.commands[rpc.id].tool.Command?
      requires !adapter.commands[rpc.id].tool.synchronous && !adapter.commands[rpc.id].effect
      modifies this, adapter
      ensures Valid() && Now() == OnCommitEffect(old(Now()))
    {
      hide Run, Created, ModelNext, ToolNext, LeavingNext, RecoveryNext, ControllerNext;
      adapter.commands := adapter.commands[rpc.id := adapter.commands[rpc.id].(effect := true)];
      effects := effects + multiset{rpc.id};
      Log(CommitEffect);
    }

    method Receipt(success: bool, output: nat)
      requires Valid() && InFlight(Now()) && adapter.commands[rpc.id].tool.Command?
      requires adapter.commands[rpc.id].tool.synchronous || !success || adapter.commands[rpc.id].effect
      modifies this, adapter
      ensures Valid() && Now() == OnCommitReceipt(old(Now()), success, output)
    {
      hide Run, Created, Next;
      ReceiptIsAMove(Now(), success, output);
      var id, row := rpc.id, adapter.commands[rpc.id];
      var result := ToolResult(id, row.tool, success, output);
      if row.tool.synchronous && success {
        row := row.(effect := true);
        effects := effects + multiset{id};
      }
      adapter.commands := adapter.commands[id := row.(result := Some(result))];
      rpc := NoRpc;
      if w == Commanding(id) {
        w := ToolFinished(id, result);
      }
      Log(CommitReceipt(success, output));
    }

    method StartWorker(denied: Option<string>) returns (started: bool)
      requires Valid() && w.Down? && rpc.NoRpc?
      modifies this, adapter
      ensures Valid() && Now() == OnStart(old(Now()), denied) && started == w.Booting?
    {
      hide Run, Created, Next;
      StartIsAMove(Now(), denied);
      started := false;
      if adapter.launch.LaunchReady? || adapter.launch.LaunchSuspended? {
        var refusal := adapter.IntentRefusalNow(denied);
        if refusal.None? {
          adapter.launch := Starting;
          adapter.epoch := adapter.epoch + 1;
          w, connected, started := Booting, true, true;
        }
      }
      Log(Start(denied));
    }

    ghost predicate Recovering()
      reads this, journal, adapter
    {
      Valid() && MayRecover(Now())
    }

    /** Delivers the journal's events again, in their order. `reading` says how far it came: to the end, with every
        event applied, or to some event, with the last suspension before it. */
    method Replay() returns (reading: Reading, rethrown: bool, ghost moves: seq<Move>)
      requires Recovering()
      modifies this, adapter
      ensures Recovering() && journal.Tables() == old(journal.Tables()) && adapter.grants == old(adapter.grants)
      ensures origin == old(origin) && trace == old(trace) + moves && forall i :: 0 <= i < |moves| ==> moves[i].Deliver?
      ensures reading.Readable? ==> !rethrown && adapter.lastSequence == |journal.events|
      ensures reading.Broken? ==>
        exists n :: 0 <= n <= |journal.events| && reading.seen == LastSuspension(journal.events[..n])
    {
      hide Run, Created, Inv, OnDeliver;
      var seen := None;
      moves := [];
      for n := 0 to |journal.events|
        invariant Recovering() && journal.Tables() == old(journal.Tables()) && adapter.grants == old(adapter.grants)
        invariant origin == old(origin) && trace == old(trace) + moves && forall i :: 0 <= i < |moves| ==>
            moves[i].Deliver?
        invariant seen == LastSuspension(journal.events[..n])
        invariant forall i :: 1 <= i <= n ==> i in adapter.inbox
      {
        if * {
          return Broken(seen), false, moves;
        }
        KeepsRecovering(n + 1);
        var error := DeliverEvent(n + 1);
        moves := moves + [Deliver(n + 1)];
        if error.Some? {
          return Broken(seen), error.value in {"OWNER_WORKER_OPERATION_CONFLICT", "OWNER_ATTEMPT_TERMINAL",
              "OWNER_RECEIPT_CONFLICT", "OWNER_ATTEMPT_STALE"}, moves;
        }
        assert journal.events[..n + 1][..n] == journal.events[..n];
        if journal.events[n].SuspensionEvent? {
          seen := Some(journal.events[n].reason);
        }
      }
      AllApplied();
      return Readable, false, moves;
    }

    lemma AllApplied()
      requires Valid() && forall i :: 1 <= i <= |journal.events| ==> i in adapter.inbox
      ensures adapter.lastSequence == |journal.events|
    {
      hide Run, Created, Safe, ToolInv, StopInv;
      Keeps();
    }

    lemma KeepsRecovering(n: nat)
      requires Valid()
      ensures MayRecover(Now()) ==> MayRecover(OnDeliver(Now(), n))
      ensures OnDeliver(Now(), n).c.grants == adapter.grants
    {
      hide Run, Created, Inv, OnDeliver, SameGround;
      DeliverMeanwhile(Now(), n);
      RunIsKnown(origin, trace);
      PartsOfInv(Now());
      DeliverKeepsGround(Now(), n);
      SameGroundRecovers(Now(), OnDeliver(Now(), n));
    }

    /** A row whose call has no response: proved unsent, or unknown. */
    method FailRow(k: nat)
      requires Recovering() && k in journal.models
      modifies this, adapter
      ensures Recovering() && Now() == OnRecoverRow(old(Now()), k)
      ensures origin == old(origin) && trace == old(trace) + [RecoverRow(k)]
    {
      hide Run, Created, Next, Ledger.Fail;
      RecoveryIsNext(Now(), RecoverRow(k));
      var row := journal.models[k];
      if row.permit.Some? && row.response.None? {
        adapter.ledger := Ledger.Fail(adapter.ledger, row.permit.value, row.state.CallNotSent?);
      }
      Log(RecoverRow(k));
    }

    /** A grant of a step that was never marked sent. */
    method ReleaseGrant(k: nat, p: nat)
      requires Recovering() && k in journal.models
      modifies this, adapter
      ensures Recovering() && Now() == OnRecoverUnsent(old(Now()), k, p)
      ensures origin == old(origin) && trace == old(trace) + [RecoverUnsent(k, p)]
    {
      hide Run, Created, Next, Ledger.Fail, Unmarked;
      RecoveryIsNext(Now(), RecoverUnsent(k, p));
      if Unmarked(journal.Tables(), adapter.Rows(), k, p) {
        adapter.ledger := Ledger.Fail(adapter.ledger, p, true);
      }
      Log(RecoverUnsent(k, p));
    }

    method ReleaseFirst()
      requires Recovering()
      modifies this, adapter
      ensures Recovering() && Now() == OnRecoverFirst(old(Now()))
      ensures origin == old(origin) && trace == old(trace) + [RecoverFirst]
    {
      hide Run, Created, Next, Ledger.Fail;
      RecoveryIsNext(Now(), RecoverFirst);
      if adapter.firstPermit !in adapter.grants {
        adapter.ledger := Ledger.Fail(adapter.ledger, adapter.firstPermit, true);
      }
      Log(RecoverFirst);
    }

    /** Goes through the journal's calls, every row and every grant of every row; an unreadable file breaks off
        anywhere. */
    method SettleCalls() returns (broken: bool, ghost moves: seq<Move>)
      requires Recovering()
      modifies this, adapter
      ensures Recovering() && SameButLedger(old(Now()))
      ensures origin == old(origin) && trace == old(trace) + moves && Settling(moves)
      ensures !broken ==> forall k :: k in journal.models ==> RecoverRow(k) in moves
      ensures !broken ==> forall k, p :: k in journal.models && p in adapter.grants ==> RecoverUnsent(k, p) in moves
    {
      hide Run, Created, Inv, Next;
      moves := [];
      var steps := journal.models.Keys;
      while steps != {}
        invariant Recovering() && SameButLedger(old(Now())) && steps <= journal.models.Keys
        invariant origin == old(origin) && trace == old(trace) + moves && Settling(moves)
        invariant forall k :: k in journal.models ==> k in steps || RecoverRow(k) in moves
        decreases steps
      {
        if * {
          return true, moves;
        }
        var k :| k in steps;
        steps := steps - {k};
        FailRow(k);
        moves := moves + [RecoverRow(k)];
      }
      steps := journal.models.Keys;
      while steps != {}
        invariant Recovering() && SameButLedger(old(Now())) && steps <= journal.models.Keys
        invariant origin == old(origin) && trace == old(trace) + moves && Settling(moves)
        invariant forall k :: k in journal.models ==> RecoverRow(k) in moves
        invariant forall k, p :: k in journal.models && p in adapter.grants ==>
            k in steps || RecoverUnsent(k, p) in moves
        decreases steps
      {
        if * {
          return true, moves;
        }
        var k :| k in steps;
        steps := steps - {k};
        ghost var more := ReleaseGrants(k);
        moves := moves + more;
      }
      broken := false;
    }

    method ReleaseGrants(k: nat) returns (ghost moves: seq<Move>)
      requires Recovering() && k in journal.models
      modifies this, adapter
      ensures Recovering() && SameButLedger(old(Now()))
      ensures origin == old(origin) && trace == old(trace) + moves && Settling(moves)
      ensures forall p :: p in adapter.grants ==> RecoverUnsent(k, p) in moves
    {
      hide Run, Created, Inv, Next;
      moves := [];
      var permits := adapter.grants.Keys;
      while permits != {}
        invariant Recovering() && SameButLedger(old(Now()))
        invariant origin == old(origin) && trace == old(trace) + moves && Settling(moves)
        invariant forall p :: p in adapter.grants ==> p in permits || RecoverUnsent(k, p) in moves
        decreases permits
      {
        var p :| p in permits;
        permits := permits - {p};
        ReleaseGrant(k, p);
        moves := moves + [RecoverUnsent(k, p)];
      }
    }

    /** Only money rows have changed. */
    ghost predicate SameButLedger(s: System)
      reads this, journal, adapter
    {
      Now() == s.(c := s.c.(ledger := adapter.ledger))
    }

    /** What is done with a worker whose process has exited. When it completes, the launch is released one way or the
        other; a suspended attempt has no call of unknown outcome and, if its journal could be read, no tool of unknown
        outcome. When it read the journal to its end, every call it found open is proved unsent, answered, or left to
        the owner, as the journal says, and a first permit that was never granted is proved unsent. */
    method Recover() returns (completed: bool, ghost reading: Reading)
      requires Recovering()
      modifies this, adapter
      ensures Valid() && w.Down? && journal.Tables() == old(journal.Tables())
      ensures completed ==>
          if adapter.attempt.Suspended? then adapter.launch.LaunchSuspended?
          else adapter.launch.Exited? && !Active(adapter.attempt)
      ensures completed && adapter.launch.LaunchSuspended? ==> !UnknownOutcome(spec, adapter.Rows())
      ensures completed && adapter.launch.LaunchSuspended? && !adapter.blind ==>
          !UnknownTool(journal.Tables(), adapter.Rows())
      ensures completed && reading.Readable? ==> Resolved(old(Now()), Now())
      ensures completed ==> Ends(old(Now()), Now(), reading)
    {
      hide Run, Created, Inv, Resolved, Whole, Concluded, Ends;
      var read, rethrown;
      ghost var moves;
      read, rethrown, moves := ReadJournal();
      reading := read;
      if rethrown {
        return false, reading;
      }
      ReleaseFirst();
      ConcludeWith(read);
      FirstAndLast(old(Now()), moves, read);
      EndsExactly(old(origin), old(trace), moves, read);
      if read.Readable? {
        ReadRecovery(old(origin), old(trace), moves + [RecoverFirst] + [WorkerRuns.Conclude(read)]);
      }
      return true, reading;
    }

    /** Replays the journal, then goes through its calls. */
    method ReadJournal() returns (reading: Reading, rethrown: bool, ghost moves: seq<Move>)
      requires Recovering()
      modifies this, adapter
      ensures Recovering() && journal.Tables() == old(journal.Tables()) && adapter.grants == old(adapter.grants)
      ensures origin == old(origin) && trace == old(trace) + moves
      ensures reading.Readable? ==>
        !rethrown && adapter.lastSequence == |journal.events| && Whole(old(Now()), moves + [RecoverFirst])
      ensures forall i :: 0 <= i < |moves| ==> moves[i].Deliver? || moves[i].RecoverRow? || moves[i].RecoverUnsent?
    {
      hide Run, Created, Inv, Next;
      reading, rethrown, moves := Replay();
      if reading.Readable? {
        var seen := LastSuspension(journal.events);
        ghost var deliveries := moves;
        var broken;
        ghost var more;
        broken, more := SettleCalls();
        moves := deliveries + more;
        if broken {
          reading := Broken(seen);
        } else {
          JoinedIsWhole(old(Now()), deliveries, more);
        }
      }
    }

    /** Whatever was read, the moves before the decision are those of a recovery. */
    lemma EndsExactly(s0: System, before: seq<Move>, moves: seq<Move>, reading: Reading)
      requires Valid() && origin == s0 && trace == before + moves + [RecoverFirst] + [WorkerRuns.Conclude(reading)]
      requires MayRecover(Run(s0, before))
      requires forall i :: 0 <= i < |moves| ==> moves[i].Deliver? || moves[i].RecoverRow? || moves[i].RecoverUnsent?
      ensures Ends(Run(s0, before), Now(), reading)
    {
      hide Run, Created, Inv, Next, Ends, MayRecover;
      var all := moves + [RecoverFirst];
      assert forall i :: 0 <= i < |all| ==> Recovers(all[i]) && !all[i].Conclude?;
      RecoveryEndsExactly(s0, before, all, reading);
      RunOfParts(s0, before, all + [WorkerRuns.Conclude(reading)]);
      assert before + (all + [WorkerRuns.Conclude(reading)]) == trace;
    }

    lemma ReadRecovery(s0: System, before: seq<Move>, moves: seq<Move>)
      requires Valid() && origin == s0 && trace == before + moves && MayRecover(Run(s0, before))
          && Whole(Run(s0, before), moves)
      requires Concluded(moves) && adapter.lastSequence == |journal.events| && journal.Tables() == Run(s0, before).j
      ensures Resolved(Run(s0, before), Now())
    {
      hide Run, Created, Whole, Concluded, Resolved;
      RunOfParts(s0, before, moves);
      FullRecoveryResolves(s0, before, moves);
    }

    /** Decides the outcome from what was read. */
    method ConcludeWith(reading: Reading)
      requires Recovering()
      modifies this, adapter
      ensures Valid() && Now() == OnConclude(old(Now()), reading) && Inv(Now())
      ensures origin == old(origin) && trace == old(trace) + [WorkerRuns.Conclude(reading)]
      ensures if adapter.attempt.Suspended? then adapter.launch.LaunchSuspended?
              else adapter.launch.Exited? && !Active(adapter.attempt)
      ensures adapter.launch.LaunchSuspended? ==> !UnknownOutcome(spec, adapter.Rows())
      ensures adapter.launch.LaunchSuspended? && !adapter.blind ==> !UnknownTool(journal.Tables(), adapter.Rows())
    {
      hide Run, Created, Inv, Next;
      var last := if reading.Readable? then LastSuspension(journal.events) else reading.seen;
      adapter.Decide(journal.Tables(), reading, last);
      LogConclusion(reading);
      Keeps();
      Suspension(Now());
    }

    /** The exit of a worker process: its recovery, or, when that fails, an attempt that waits for review. */
    method OnExit()
      requires Recovering()
      modifies this, adapter
      ensures Valid() && w.Down? && journal.Tables() == old(journal.Tables())
      ensures (adapter.launch.LaunchSuspended? && adapter.attempt.Suspended?) || !Active(adapter.attempt)
    {
      hide Run, Created, Inv, Next, MayRecover, UnknownOutcome, UnknownTool;
      var completed, _ := Recover();
      if !completed {
        var why: string := *;
        BlockForReview(why);
      }
    }

    method BlockForReview(why: string)
      requires Valid()
      modifies this, adapter
      ensures Valid() && Now() == OnRetire(old(Now()), Blocked, why) && w == old(w)
      ensures !Active(adapter.attempt)
    {
      hide Run, Created, Next;
      RetireIsAMove(Now(), why);
      adapter.Observe(Blocked, why);
      Log(Retire(Blocked, why));
    }

    ghost method LogConclusion(reading: Reading)
      requires adapter.spec == spec && Created(origin) && Now() == OnConclude(Run(origin, trace), reading)
      modifies `trace
      ensures Valid() && trace == old(trace) + [WorkerRuns.Conclude(reading)]
    {
      hide Run, Created, OnConclude;
      ConclusionIsAMove(Run(origin, trace), reading);
      Log(WorkerRuns.Conclude(reading));
    }
  }

  /** The moves between the replay and the conclusion. */
  predicate Settling(moves: seq<Move>) {
    forall i :: 0 <= i < |moves| ==> moves[i].RecoverRow? || moves[i].RecoverUnsent?
  }

  lemma JoinedIsWhole(s: System, deliveries: seq<Move>, more: seq<Move>)
    requires (forall i :: 0 <= i < |deliveries| ==> deliveries[i].Deliver?) && Settling(more)
    requires forall k :: k in s.j.models ==> RecoverRow(k) in more
    requires forall k, p :: k in s.j.models && p in s.c.grants ==> RecoverUnsent(k, p) in more
    ensures Whole(s, deliveries + more + [RecoverFirst])
  {
    var all := deliveries + more + [RecoverFirst];
    forall m | m in more ensures m in all {
    }
    assert all[|all| - 1] == RecoverFirst;
  }

  lemma FirstAndLast(s: System, moves: seq<Move>, reading: Reading)
    ensures Concluded(moves + [RecoverFirst] + [WorkerRuns.Conclude(reading)])
    ensures Whole(s, moves + [RecoverFirst]) ==> Whole(s, moves + [RecoverFirst] + [WorkerRuns.Conclude(reading)])
  {
    var some := moves + [RecoverFirst];
    var all := some + [WorkerRuns.Conclude(reading)];
    assert all[|some|].Conclude?;
    forall m | m in some ensures m in all {
    }
  }

  lemma SameGroundRecovers(s: System, t: System)
    requires SameGround(s, t)
    ensures MayRecover(s) ==> MayRecover(t)
    ensures t.c.grants == s.c.grants
  {
  }

  lemma ReceiveStores(spec: Spec, c: Controller, n: nat, e: Event)
    ensures
      var r := WorkerProtocol.Receive(spec, c, n, e);
      r.Ok? ==> r.value.inbox.Keys == c.inbox.Keys + {n}
  {
    if n !in c.inbox && WorkerProtocol.Receive(spec, c, n, e).Ok? {
      DrainKeepsCommands(spec, c.(inbox := c.inbox[n := e]));
    }
  }

  lemma StartIsAMove(s: System, denied: Option<string>)
    ensures Next(s, WorkerRuns.Start(denied)) == OnStart(s, denied)
  {
    hide OnStart, ModelNext, ToolNext, ProcessNext, LeavingNext, RecoveryNext;
  }

  lemma RecordIsAMove(s: System)
    ensures Next(s, Record) == OnRecord(s)
  {
    hide OnRecord, ToolNext, ProcessNext, LeavingNext, RecoveryNext, ControllerNext;
  }

  lemma ReceiptIsAMove(s: System, success: bool, output: nat)
    ensures Next(s, CommitReceipt(success, output)) == OnCommitReceipt(s, success, output)
  {
    hide OnCommitReceipt, ModelNext, ToolNext, LeavingNext, RecoveryNext, ControllerNext;
  }

  lemma RetireIsAMove(s: System, why: string)
    ensures Next(s, Retire(Blocked, why)) == OnRetire(s, Blocked, why)
  {
    hide OnRetire, ModelNext, ToolNext, ProcessNext, LeavingNext, RecoveryNext;
  }

  lemma ConclusionIsAMove(s: System, reading: Reading)
    ensures Next(s, WorkerRuns.Conclude(reading)) == OnConclude(s, reading)
  {
    hide OnConclude, ModelNext, ToolNext, ProcessNext, LeavingNext, ControllerNext;
  }

  lemma Suspension(s: System)
    requires Inv(s)
    ensures s.c.launch.LaunchSuspended? ==> !UnknownOutcome(s.spec, s.c) && (!s.c.blind ==> !UnknownTool(s.j, s.c))
    ensures s.c.launch.Exited? ==> !Active(s.c.attempt)
  {
    hide Safe, DeliveryInv, ToolInv;
    if s.c.launch.LaunchSuspended? {
      forall p | 0 <= p < |s.c.ledger.permits| ensures !OpenCall(s.spec, s.c.ledger.permits[p]) {
      }
    }
  }
}
