/** How a recovery ends an attempt (company_worker_adapter.ts), said of the journal it read, the grants, and the calls
    and tools it leaves open. */
module WorkerVerdicts {
  import opened Wrappers
  import opened AttemptStates
  import opened Journal
  import opened WorkerProtocol
  import opened WorkerRuns
  import opened WorkerSafety
  import opened WorkerController
  import opened WorkerTools
  import opened WorkerTheorems
  import opened WorkerResults
  import opened WorkerReports
  import opened WorkerRecovery
  import Ledger

  // ---- What is open, what was read ----

  /** A permit of the attempt that may have been sent and has no answer. */
  predicate Chargeable(attempt: nat, p: Ledger.Permit) {
    && p.source.Some? && p.source.value.kind.CompanyWorker? && p.source.value.call.ModelStep?
    && p.source.value.call.attempt == attempt
    && (p.state.Sent? || p.state.Unknown?) && p.response.None?
  }

  ghost predicate CallLeft(s: System) {
    exists p :: 0 <= p < |s.c.ledger.permits| && Chargeable(s.spec.attempt, s.c.ledger.permits[p])
  }

  /** A started tool that may have taken effect, with no receipt of that operation and tool. */
  predicate Untold(s: System, id: ToolId) {
    && id in s.j.tools && s.j.tools[id].state.ToolStarted? && !s.j.tools[id].tool.SaveArtifact?
    && !(id in s.c.commands && s.c.commands[id].result.Some? && s.c.commands[id].result.value.id == id
          && s.c.commands[id].result.value.tool == s.j.tools[id].tool)
  }

  ghost predicate ToolLeft(s: System) {
    exists id :: Untold(s, id)
  }

  /** The reasons for which a worker is stopped to be resumed. */
  predicate Resumable(why: string) {
    || why == "OWNER_CONTROLLER_DISCONNECTED" || why == "OWNER_AUTOMATION_OFF" || why == "OWNER_GOAL_PAUSED"
    || why == "EVOLUTION_QUIESCED" || why == "OWNER_COMPANY_BUDGET_REQUIRED"
    || why == "OWNER_COMPANY_BUDGET_EXHAUSTED" || why == "OWNER_COMPANY_BUDGET_BUSY"
  }

  ghost predicate LastSuspensionAt(events: seq<Event>, i: nat) {
    && i < |events| && events[i].SuspensionEvent?
    && forall j :: i < j < |events| ==> !events[j].SuspensionEvent?
  }

  /** The last suspension in the journal, or the last one before reading broke off. */
  ghost predicate Seen(events: seq<Event>, reading: Reading, why: string) {
    match reading
    case Readable =>
      exists i: nat :: LastSuspensionAt(events, i) && events[i].reason == why
    case Broken(seen) => seen == Some(why)
  }

  /** Evidence is missing: the journal could not be read, or has no identity. */
  predicate Unread(j: Rows, reading: Reading) {
    reading.Broken? || !j.file.Ready?
  }

  /** The first end journaled in a range. */
  ghost predicate FirstEnd(events: seq<Event>, from: nat, to: nat, i: nat) {
    && from <= i < to && i < |events| && events[i].FinishEvent?
    && forall j :: from <= j < i ==> !events[j].FinishEvent?
  }

  // ---- An end that recovery applies ----

  ghost predicate EndedAt(events: seq<Event>, from: nat, to: nat, i: nat, d: Controller) {
    FirstEnd(events, from, to, i) && d.attempt == events[i].kind && d.reason == events[i].reason
  }

  /** An active attempt ends as the first end applied says; an ended one stays as it is. */
  ghost predicate EndsAs(events: seq<Event>, c: Controller, d: Controller) {
    && c.lastSequence <= d.lastSequence
    && (!Active(c.attempt) || !EndBetween(events, c.lastSequence, d.lastSequence) ==>
          d.attempt == c.attempt && d.reason == c.reason)
    && (Active(c.attempt) && EndBetween(events, c.lastSequence, d.lastSequence) ==>
          exists i :: EndedAt(events, c.lastSequence, d.lastSequence, i, d))
  }

  lemma EndsAsJoin(events: seq<Event>, a: Controller, b: Controller, c: Controller)
    requires EndsEnd(events) && EndsAs(events, a, b) && EndsAs(events, b, c)
    ensures EndsAs(events, a, c)
  {
    if Active(a.attempt) {
      if i :| EndedAt(events, a.lastSequence, b.lastSequence, i, b) {
        assert EndedAt(events, a.lastSequence, c.lastSequence, i, c);
      } else if i :| EndedAt(events, b.lastSequence, c.lastSequence, i, c) {
        assert EndedAt(events, a.lastSequence, c.lastSequence, i, c);
      }
    }
  }

  lemma OneEndsAs(spec: Spec, c: Controller, events: seq<Event>)
    requires FromJournal(c.inbox, events) && c.lastSequence + 1 in c.inbox
    requires ApplyEvent(spec, c, c.inbox[c.lastSequence + 1]).Ok?
    ensures
      var n := c.lastSequence + 1;
      var a := ApplyEvent(spec, c, c.inbox[n]).value;
      EndsAs(events, c, a.(lastSequence := n, applied := a.applied + [c.inbox[n]]))
  {
    hide Ledger.Respond, Ledger.Fail;
    var n := c.lastSequence + 1;
    assert events[n - 1] == c.inbox[n];
    var a := ApplyEvent(spec, c, c.inbox[n]).value;
    var d := a.(lastSequence := n, applied := a.applied + [c.inbox[n]]);
    if EndBetween(events, c.lastSequence, n) && Active(c.attempt) {
      assert events[n - 1].FinishEvent? && EndedAt(events, c.lastSequence, n, n - 1, d);
    }
  }

  lemma {:induction false} DrainEndsAs(spec: Spec, c: Controller, events: seq<Event>)
    requires FromJournal(c.inbox, events) && EndsEnd(events) && Drain(spec, c).Ok?
    ensures EndsAs(events, c, Drain(spec, c).value)
    decreases Buffered(c)
  {
    hide ApplyEvent, EndsEnd;
    var n := c.lastSequence + 1;
    if n in c.inbox {
      var a := ApplyEvent(spec, c, c.inbox[n]).value;
      var d := a.(lastSequence := n, applied := a.applied + [c.inbox[n]]);
      assert n in Buffered(c) && n !in Buffered(d) && Buffered(d) <= Buffered(c);
      OneEndsAs(spec, c, events);
      DrainEndsAs(spec, d, events);
      EndsAsJoin(events, c, d, Drain(spec, d).value);
    }
  }

  lemma DeliverEndsAs(s: System, n: nat)
    requires Safe(s) && DeliveryInv(s)
    ensures EndsEnd(s.j.events) && EndsAs(s.j.events, s.c, OnDeliver(s, n).c)
  {
    hide Ledger.Inv, JournalInv, GrantInv, CallInv, PhaseInv, AnswerInv, EndsAs, Drain;
    forall i | 0 <= i < |s.j.events| && s.j.events[i].FinishEvent? ensures !Active(s.j.events[i].kind) {
      assert EventOk(s, s.j.events[i]);
    }
    SameEnds(s.j.events, s.c, s.c);
    if OnDeliver(s, n) != s {
      var u := Posted(s, n).c;
      DrainEndsAs(s.spec, u, s.j.events);
      SameEnds(s.j.events, s.c, u);
      EndsAsJoin(s.j.events, s.c, u, OnDeliver(s, n).c);
    }
  }

  lemma SameEnds(events: seq<Event>, c: Controller, d: Controller)
    requires d.attempt == c.attempt && d.reason == c.reason && d.lastSequence == c.lastSequence
    ensures EndsAs(events, c, d)
  {
  }

  lemma NextEndsAs(s: System, m: Move)
    requires Known(s) && Recovers(m) && !m.Conclude?
    ensures EndsEnd(s.j.events) && EndsAs(s.j.events, s.c, Next(s, m).c)
  {
    hide Known, Safe, DeliveryInv, Next, OnDeliver, OnConclude, OnRecoverRow, OnRecoverUnsent, OnRecoverFirst, EndsAs,
        EndsEnd;
    RecoveryIsNext(s, m);
    KnownDelivers(s);
    DeliverEndsAs(s, if m.Deliver? then m.sequence else 0);
    if !m.Deliver? {
      RecoverWritesMoneyOnly(s, if m.RecoverRow? || m.RecoverUnsent? then m.step else 0,
        if m.RecoverUnsent? then m.permit else 0);
      SameEnds(s.j.events, s.c, Next(s, m).c);
    }
  }

  lemma {:induction false} RecoveryEndsAs(s: System, moves: seq<Move>)
    requires Known(s) && Recovery(moves) && !Concluded(moves)
    ensures EndsAs(s.j.events, s.c, Run(s, moves).c)
  {
    hide Known, Next, EndsAs, EndsEnd, SameGround;
    SameEnds(s.j.events, s.c, s.c);
    if moves != [] {
      var before, m := moves[..|moves| - 1], moves[|moves| - 1];
      RecoveryUndecided(s, before);
      RecoveryEndsAs(s, before);
      NextEndsAs(Run(s, before), m);
      SameJournal(s, Run(s, before));
      EndsAsJoin(s.j.events, s.c, Run(s, before).c, Run(s, moves).c);
    }
  }

  lemma SameJournal(s: System, t: System)
    requires SameGround(s, t)
    ensures t.j == s.j && t.spec == s.spec && t.c.grants == s.c.grants && t.c.firstPermit == s.c.firstPermit
        && t.c.epoch == s.c.epoch
  {
  }

  // ---- A journal without identity is empty ----

  /** Until the identity is written the process does nothing else. */
  ghost predicate Unborn(s: System) {
    !s.j.file.Ready? ==>
      && s.j.models == map[] && s.j.tools == map[] && s.j.events == [] && s.j.terminal.None?
      && (s.w.Down? || s.w.Booting?) && s.rpc.NoRpc?
  }

  /** A move that needs a process at work, and does not touch the file. */
  ghost predicate AtWork(s: System, t: System) {
    t.j.file == s.j.file && ((s.w.Down? || s.w.Booting?) && s.rpc.NoRpc? ==> t == s)
  }

  lemma ModelMovesAtWork(s: System, m: Move)
    requires ModelMove(m)
    ensures AtWork(s, Next(s, m))
  {
    hide ToolNext, ProcessNext, LeavingNext, RecoveryNext, ControllerNext;
  }

  lemma ToolMovesAtWork(s: System, m: Move)
    requires WorkerToolMove(m)
    ensures AtWork(s, Next(s, m))
  {
    hide ModelNext, ProcessNext, LeavingNext, RecoveryNext, ControllerNext, Receipted;
  }

  lemma LeavingMovesAtWork(s: System, m: Move)
    requires LeavingMove(m)
    ensures AtWork(s, Next(s, m))
  {
    hide ModelNext, ToolNext, ProcessNext, RecoveryNext, ControllerNext;
  }

  lemma ProcessMovesUnborn(s: System, m: Move)
    requires Unborn(s) && ToolMove(m) && !WorkerToolMove(m)
    ensures Unborn(Next(s, m))
  {
    hide ModelNext, ToolNext, LeavingNext, RecoveryNext, ControllerNext;
  }

  lemma ControllerMovesUnborn(s: System, m: Move)
    requires Unborn(s) && !ModelMove(m) && !ToolMove(m) && !LeavingMove(m)
    ensures Unborn(Next(s, m))
  {
    hide ModelNext, ToolNext, ProcessNext, LeavingNext, Receive, Decide, Authorize, Ledger.Step, Ledger.Fail,
        MayRecover,
        Unmarked, Foreign;
  }

  lemma NextUnborn(s: System, m: Move)
    requires Unborn(s)
    ensures Unborn(Next(s, m))
  {
    hide Next;
    if ModelMove(m) {
      ModelMovesAtWork(s, m);
    } else if WorkerToolMove(m) {
      ToolMovesAtWork(s, m);
    } else if LeavingMove(m) {
      LeavingMovesAtWork(s, m);
    } else if ToolMove(m) {
      ProcessMovesUnborn(s, m);
    } else {
      ControllerMovesUnborn(s, m);
    }
  }

  lemma {:induction false} RunUnborn(s0: System, moves: seq<Move>)
    requires Created(s0)
    ensures Unborn(Run(s0, moves))
  {
    hide Next, Unborn;
    if moves == [] {
      CreatedUnborn(s0);
    } else {
      RunUnborn(s0, moves[..|moves| - 1]);
      NextUnborn(Run(s0, moves[..|moves| - 1]), moves[|moves| - 1]);
    }
  }

  lemma CreatedUnborn(s: System)
    requires Created(s)
    ensures Unborn(s)
  {
  }

  /** Then nothing was granted and no tool was started either. */
  lemma UnbornIsUngranted(s: System)
    requires Unborn(s) && GrantInv(s) && !s.j.file.Ready?
    ensures s.c.firstPermit !in s.c.grants && !ToolLeft(s)
  {
  }

  // ---- The verdict ----

  /** It never started: no evidence, and its first permit was never granted. */
  predicate DiedBeforeStart(s: System, reading: Reading) {
    Unread(s.j, reading) && s.c.firstPermit !in s.c.grants
  }

  ghost predicate SeenResumable(events: seq<Event>, reading: Reading) {
    exists why :: Seen(events, reading, why) && Resumable(why)
  }

  /** It can be resumed: it was stopped for a reason of the controller, or simply was not finished. */
  ghost predicate MayResume(s: System, reading: Reading) {
    SeenResumable(s.j.events, reading) || (reading.Readable? && s.j.terminal.None?)
  }

  ghost predicate KnownToolLeft(s: System, reading: Reading) {
    reading.Readable? && ToolLeft(s)
  }

  /** The verdict over `t`, with the state and reason recorded. */
  ghost predicate JudgedAs(t: System, reading: Reading, state: AttemptState, why: string) {
    && (state.Failed? <==> !CallLeft(t) && DiedBeforeStart(t, reading))
    && (state.Suspended? <==>
          !CallLeft(t) && !DiedBeforeStart(t, reading) && !KnownToolLeft(t, reading) && MayResume(t, reading))
    && (state.Blocked? <==> !state.Failed? && !state.Suspended?)
    && (state.Failed? ==> why == "OWNER_WORKER_DIED_BEFORE_START")
    && (state.Suspended? ==>
          if exists r :: Seen(t.j.events, reading, r) then Seen(t.j.events, reading, why)
          else why == "OWNER_CONTROLLER_DISCONNECTED")
    && (state.Blocked? ==>
          why == if CallLeft(t) then "CALL_OUTCOME_UNKNOWN" else if KnownToolLeft(t, reading)
              then "TOOL_OUTCOME_UNKNOWN"
              else "OWNER_WORKER_FAILED")
  }

  lemma SameCallsLeft(s: System)
    ensures UnknownOutcome(s.spec, s.c) <==> CallLeft(s)
    ensures UnknownTool(s.j, s.c) <==> ToolLeft(s)
  {
    assert forall q :: OpenCall(s.spec, q) <==> Chargeable(s.spec.attempt, q);
    assert forall id :: id in s.j.tools && UnfinishedTool(s.j, s.c, id) <==> Untold(s, id);
  }

  lemma {:induction false} LastIsSeen(events: seq<Event>, r: string)
    ensures LastSuspension(events) == Some(r) <==> Seen(events, Readable, r)
  {
    if events != [] {
      var n := |events| - 1;
      LastIsSeen(events[..n], r);
      if events[n].SuspensionEvent? {
        assert LastSuspensionAt(events, n);
      } else {
        if i: nat :| LastSuspensionAt(events[..n], i) && events[..n][i].reason == r {
          assert LastSuspensionAt(events, i);
        }
        if i: nat :| LastSuspensionAt(events, i) && events[i].reason == r { assert LastSuspensionAt(events[..n], i); }
      }
    }
  }

  lemma NothingSeen(s: System, reading: Reading)
    ensures
      var seen := if reading.Readable? then LastSuspension(s.j.events) else reading.seen;
      && (forall r :: seen == Some(r) <==> Seen(s.j.events, reading, r))
      && (seen.Some? && SuspendReason(seen.value) <==> SeenResumable(s.j.events, reading))
  {
    hide LastSuspension;
    forall r ensures reading.Readable? ==> (LastSuspension(s.j.events) == Some(r) <==> Seen(s.j.events, reading, r)) {
      LastIsSeen(s.j.events, r);
    }
    assert forall r :: SuspendReason(r) <==> Resumable(r);
  }

  /** The decision alone. */
  lemma DiagnosisIsTheVerdict(s: System, reading: Reading)
    requires Unborn(s) && GrantInv(s)
    ensures var d := Diagnosis(s.spec, s.j, s.c, reading); JudgedAs(s, reading, d.0, d.1)
  {
    hide Seen, SeenResumable, CallLeft, ToolLeft, UnknownOutcome, UnknownTool, LastSuspension, SuspendReason, GrantInv;
    SameCallsLeft(s);
    NothingSeen(s, reading);
    if !s.j.file.Ready? { UnbornIsUngranted(s); }
  }

  lemma VerdictFrame(s: System, t: System, reading: Reading, state: AttemptState, why: string)
    requires JudgedAs(s, reading, state, why) && t.spec == s.spec && t.j == s.j
    requires t.c.ledger == s.c.ledger && t.c.commands == s.c.commands && t.c.grants == s.c.grants
        && t.c.firstPermit == s.c.firstPermit
    ensures JudgedAs(t, reading, state, why)
  {
    hide Seen, SeenResumable;
    assert CallLeft(t) <==> CallLeft(s);
    assert forall id :: Untold(t, id) <==> Untold(s, id);
    assert ToolLeft(t) <==> ToolLeft(s);
  }

  /** The last part of a recovery. */
  lemma ConcludesWithVerdict(s: System, reading: Reading)
    requires MayRecover(s) && Unborn(s) && GrantInv(s)
    ensures
      var t := OnConclude(s, reading);
      && (Active(s.c.attempt) && s.c.epoch !in s.c.stops ==> JudgedAs(t, reading, t.c.attempt, t.c.reason))
      && (!Active(s.c.attempt) || s.c.epoch in s.c.stops ==> t.c.attempt == s.c.attempt && t.c.reason == s.c.reason)
      && t.c.launch == (if t.c.attempt.Suspended? then LaunchSuspended else Exited)
      && t.c.lastSequence == s.c.lastSequence && t.j == s.j
  {
    hide Diagnosis, JudgedAs;
    DiagnosisIsTheVerdict(s, reading);
    var d := Diagnosis(s.spec, s.j, s.c, reading);
    VerdictFrame(s, OnConclude(s, reading), reading, d.0, d.1);
  }

  /** How a recovery from `s` to `t` ends the attempt. */
  ghost predicate Ends(s: System, t: System, reading: Reading) {
    var ended := EndBetween(s.j.events, s.c.lastSequence, t.c.lastSequence);
    && t.j == s.j
    && (Active(s.c.attempt) && ended ==>
          exists i :: EndedAt(s.j.events, s.c.lastSequence, t.c.lastSequence, i, t.c))
    && (Active(s.c.attempt) && !ended && s.c.epoch !in s.c.stops ==>
          JudgedAs(t, reading, t.c.attempt, t.c.reason))
    && (!Active(s.c.attempt) || (!ended && s.c.epoch in s.c.stops) ==>
          t.c.attempt == s.c.attempt && t.c.reason == s.c.reason)
    && t.c.launch == (if t.c.attempt.Suspended? then LaunchSuspended else Exited)
  }

  lemma EndsAfter(s: System, u: System, reading: Reading)
    requires MayRecover(s) && Undecided(s, u) && EndsAs(s.j.events, s.c, u.c) && Unborn(u) && GrantInv(u)
    ensures Ends(s, OnConclude(u, reading), reading)
  {
    hide JudgedAs, Unborn, GrantInv, EndBetween, FirstEnd, OnConclude;
    var t := OnConclude(u, reading);
    ConcludesWithVerdict(u, reading);
    if Active(s.c.attempt) && EndBetween(s.j.events, s.c.lastSequence, u.c.lastSequence) {
      var i :| EndedAt(s.j.events, s.c.lastSequence, u.c.lastSequence, i, u.c);
      assert EndedAt(s.j.events, s.c.lastSequence, t.c.lastSequence, i, t.c);
    }
  }

  /** How a recovery ends an attempt, at any point of any run and whatever it delivers and settles first. An attempt
      that was over stays as it is; one that its journal ends while recovery applies it ends as the first such event
      says. Otherwise it is failed exactly when it never started: no evidence could be read, its first permit was never
      granted and no call is open. It is suspended exactly when nothing is open and it was stopped for a reason of the
      controller or was not finished, for the reason read. Else it is blocked for the owner: over an open call, over a
      tool of unknown outcome, or because the worker failed. */
  lemma RecoveryEndsExactly(s0: System, before: seq<Move>, moves: seq<Move>, reading: Reading)
    requires Created(s0) && MayRecover(Run(s0, before)) && Recovery(moves) && !Concluded(moves)
    ensures Ends(Run(s0, before), Run(Run(s0, before), moves + [Conclude(reading)]), reading)
  {
    hide Known, Run, Next, OnConclude, Ends, Unborn, GrantInv, EndsAs, Undecided, MayRecover;
    RunIsKnown(s0, before);
    var s := Run(s0, before);
    RecoveryUndecided(s, moves);
    RecoveryEndsAs(s, moves);
    var u := Run(s, moves);
    RunOfParts(s, moves, [Conclude(reading)]);
    OneMove(u, Conclude(reading));
    RecoveryIsNext(u, Conclude(reading));
    RunOfParts(s0, before, moves);
    RunUnborn(s0, before + moves);
    KnownGrants(u);
    EndsAfter(s, u, reading);
  }

  lemma KnownGrants(s: System)
    requires Known(s)
    ensures GrantInv(s)
  {
    hide Reported, AppliedTook, JournalInv, GrantInv, CallInv, EventInv, PhaseInv, AnswerInv, Ledger.Inv, DeliveryInv,
        ToolInv, StopInv;
  }
}
