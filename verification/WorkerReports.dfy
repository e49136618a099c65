/** What the journal says of every permit, and what applying it has done: the facts a recovery relies on. */
module WorkerReports {
  import opened Wrappers
  import opened AttemptStates
  import opened Journal
  import opened WorkerProtocol
  import opened WorkerRuns
  import opened WorkerSafety
  import opened WorkerController
  import opened WorkerTheorems
  import opened WorkerResults
  import Ledger

  // ---- One report for every resolved call ----

  ghost predicate Says(events: seq<Event>, e: Event) {
    exists i :: 0 <= i < |events| && events[i] == e
  }

  /** Whatever is said of a permit is this event. */
  ghost predicate SaysOnly(events: seq<Event>, p: nat, e: Event) {
    forall i :: 0 <= i < |events| && Subject(events[i]) == Some(p) ==> events[i] == e
  }

  ghost predicate Told(events: seq<Event>, p: nat, e: Event) {
    Says(events, e) && SaysOnly(events, p, e)
  }

  /** A row that is no longer SENT has had exactly the outcome of its call journaled; of a row that is, nothing is said
      yet. */
  ghost predicate RowReported(j: Rows, k: nat)
    requires k in j.models
  {
    var r := j.models[k];
    r.permit.Some? ==>
      match r.state
      case CallSent => Unmentioned(j.events, r.permit.value)
      case CallUnknown => Told(j.events, r.permit.value, FailureEvent(k, r.permit.value, false))
      case Responded =>
        r.response.Some? && Told(j.events, r.permit.value, AnswerEvent(k, r.permit.value, r.response.value))
      case _ => Told(j.events, r.permit.value, FailureEvent(k, r.permit.value, true))
  }

  /** Of a grant its row does not keep, only a failure proved unsent can be said. */
  ghost predicate GrantReported(j: Rows, p: nat, k: nat) {
    k in j.models && (j.models[k].permit != Some(p) ==> SaysOnly(j.events, p, FailureEvent(k, p, true)))
  }

  ghost predicate Reported(s: System) {
    && (forall k :: k in s.j.models ==> RowReported(s.j, k))
    && (forall p :: p in s.c.grants ==> GrantReported(s.j, p, s.c.grants[p].step))
  }

  lemma AppendSays(events: seq<Event>, more: seq<Event>, p: nat, e: Event)
    requires |events| <= |more| <= |events| + 1 && more[..|events|] == events
    requires |more| > |events| ==> Subject(more[|events|]) != Some(p)
    ensures Says(events, e) ==> Says(more, e)
    ensures SaysOnly(events, p, e) ==> SaysOnly(more, p, e)
    ensures Unmentioned(events, p) ==> Unmentioned(more, p)
  {
    forall i | 0 <= i < |events| ensures more[i] == events[i] {
      assert more[..|events|][i] == more[i];
    }
  }

  /** The rows stay, and at most an event about no permit is added. */
  lemma ReportedFrame(s: System, t: System)
    requires Reported(s) && KeepsRows(s, t)
    ensures Reported(t)
  {
    hide Says, SaysOnly, Unmentioned;
    forall k | k in t.j.models ensures RowReported(t.j, k) {
      assert RowReported(s.j, k);
      var r := s.j.models[k];
      if r.permit.Some? {
        var p := r.permit.value;
        AppendSays(s.j.events, t.j.events, p, FailureEvent(k, p, true));
        AppendSays(s.j.events, t.j.events, p, FailureEvent(k, p, false));
        if r.response.Some? { AppendSays(s.j.events, t.j.events, p, AnswerEvent(k, p, r.response.value)); }
      }
    }
    forall p | p in t.c.grants ensures GrantReported(t.j, p, t.c.grants[p].step) {
      AppendSays(s.j.events, t.j.events, p, FailureEvent(t.c.grants[p].step, p, true));
    }
  }

  /** One row changes, and at most an event about its permit is added. */
  lemma RowChangeReported(s: System, t: System, k: nat)
    requires MoneyInv(s) && Reported(s) && t.c.grants == s.c.grants && k in t.j.models
    requires |s.j.events| <= |t.j.events| <= |s.j.events| + 1 && t.j.events[..|s.j.events|] == s.j.events
    requires |t.j.events| > |s.j.events| ==>
        k in s.j.models && s.j.models[k].permit.Some? && Subject(t.j.events[|s.j.events|]) == s.j.models[k].permit
    requires t.j.models.Keys == s.j.models.Keys + {k} && forall i :: i in s.j.models && i != k ==>
        t.j.models[i] == s.j.models[i]
    requires RowReported(t.j, k) && forall p :: p in s.c.grants && s.c.grants[p].step == k ==> GrantReported(t.j, p, k)
    ensures Reported(t)
  {
    hide Says, SaysOnly, Unmentioned, Ledger.Inv, CallInv, EventInv, PhaseInv, AnswerInv;
    if k in s.j.models { assert RowOk(s.spec, s.j, s.c.grants, k); }
    forall i | i in t.j.models && i != k ensures RowReported(t.j, i) {
      assert RowReported(s.j, i) && RowOk(s.spec, s.j, s.c.grants, i);
      var r := s.j.models[i];
      if r.permit.Some? {
        var p := r.permit.value;
        AppendSays(s.j.events, t.j.events, p, FailureEvent(i, p, true));
        AppendSays(s.j.events, t.j.events, p, FailureEvent(i, p, false));
        if r.response.Some? { AppendSays(s.j.events, t.j.events, p, AnswerEvent(i, p, r.response.value)); }
      }
    }
    forall p | p in t.c.grants && t.c.grants[p].step != k ensures GrantReported(t.j, p, t.c.grants[p].step) {
      AppendSays(s.j.events, t.j.events, p, FailureEvent(t.c.grants[p].step, p, true));
    }
  }

  lemma OpenStepReported(s: System)
    requires MoneyInv(s) && Reported(s)
    ensures Reported(OnStep(s))
  {
    hide Says, SaysOnly, Unmentioned, Ledger.Inv, CallInv, EventInv, PhaseInv, AnswerInv;
    var t, k := OnStep(s), s.j.nextStep;
    if t != s && k !in s.j.models {
      forall p | p in s.c.grants ensures s.c.grants[p].step != k {
        assert GrantOk(s.spec, s.j, s.c.grants, s.c.ledger.permits, p);
      }
      RowChangeReported(s, t, k);
    }
  }

  lemma RetryReported(s: System)
    requires MoneyInv(s) && Reported(s)
    ensures Reported(OnRetry(s))
  {
    hide Says, SaysOnly, Unmentioned, Ledger.Inv, CallInv, EventInv, PhaseInv, AnswerInv;
    var t, k := OnRetry(s), s.j.nextStep;
    if t != s {
      assert RowReported(s.j, k);
      forall p | p in s.c.grants && s.c.grants[p].step == k ensures GrantReported(t.j, p, k) {
        assert GrantReported(s.j, p, k);
      }
      RowChangeReported(s, t, k);
    }
  }

  lemma UnmentionedSaysOnly(events: seq<Event>, p: nat, e: Event)
    requires Unmentioned(events, p)
    ensures SaysOnly(events, p, e)
  {
  }

  /** The permit the row kept before was proved unsent. */
  lemma MarkSentReported(s: System)
    requires MoneyInv(s) && Reported(s)
    ensures Reported(OnMarkSent(s))
  {
    hide Says, SaysOnly, Unmentioned, Ledger.Inv, CallInv, EventInv, AnswerInv;
    var t := OnMarkSent(s);
    if t != s {
      var k, p := s.w.step, s.w.permit;
      assert RowReported(s.j, k);
      forall q | q in s.c.grants && s.c.grants[q].step == k ensures GrantReported(t.j, q, k) {
        assert GrantReported(s.j, q, k);
      }
      RowChangeReported(s, t, k);
    }
  }

  lemma LastSays(events: seq<Event>, p: nat, e: Event)
    requires Unmentioned(events, p)
    ensures Says(events + [e], e) && (Subject(e) == Some(p) ==> SaysOnly(events + [e], p, e))
  {
    assert (events + [e])[|events|] == e;
  }

  /** A SENT row is resolved with the event that says how. */
  lemma ResolveReported(s: System, t: System, k: nat, p: nat, e: Event)
    requires MoneyInv(s) && Reported(s) && k in s.j.models && s.j.models[k].state.CallSent?
        && s.j.models[k].permit == Some(p)
    requires t.c.grants == s.c.grants && t.j.events == s.j.events + [e] && Subject(e) == Some(p)
    requires t.j.models.Keys == s.j.models.Keys && forall i :: i in s.j.models && i != k ==>
        t.j.models[i] == s.j.models[i]
    requires t.j.models[k].permit == Some(p)
    requires match t.j.models[k].state
             case CallUnknown => e == FailureEvent(k, p, false)
             case CallNotSent => e == FailureEvent(k, p, true)
             case Responded => t.j.models[k].response.Some? && e == AnswerEvent(k, p, t.j.models[k].response.value)
             case _ => false
    ensures Reported(t)
  {
    hide Says, SaysOnly, Unmentioned, Ledger.Inv, JournalInv, CallInv, EventInv, PhaseInv, AnswerInv;
    assert RowReported(s.j, k);
    LastSays(s.j.events, p, e);
    forall q | q in s.c.grants && s.c.grants[q].step == k ensures GrantReported(t.j, q, k) {
      assert GrantReported(s.j, q, k);
      if q != p {
        AppendSays(s.j.events, t.j.events, q, FailureEvent(k, q, true));
      }
    }
    RowChangeReported(s, t, k);
  }

  lemma RecordReported(s: System)
    requires MoneyInv(s) && Reported(s)
    ensures Reported(OnRecord(s)) && Reported(OnMarkLost(s))
  {
    hide Says, SaysOnly, Unmentioned, RowReported, GrantReported, Ledger.Inv, JournalInv, CallInv, EventInv, AnswerInv;
    var t, l, k := OnRecord(s), OnMarkLost(s), s.j.nextStep;
    if s.w.Answered? && t != s {
      ResolveReported(s, t, s.w.step, s.w.permit, AnswerEvent(s.w.step, s.w.permit, s.w.response));
    } else if s.w.Refused? {
      ResolveReported(s, t, s.w.step, s.w.permit, FailureEvent(s.w.step, s.w.permit, true));
    } else if s.w.Lost? {
      ResolveReported(s, t, s.w.step, s.w.permit, FailureEvent(s.w.step, s.w.permit, false));
    }
    if l != s {
      ResolveReported(s, l, k, s.j.models[k].permit.value, FailureEvent(k, s.j.models[k].permit.value, false));
    }
  }

  /** The model rows and the grants stay, and at most an event about no permit is added. */
  ghost predicate KeepsRows(s: System, t: System) {
    && t.j.models == s.j.models && t.c.grants == s.c.grants
    && |s.j.events| <= |t.j.events| <= |s.j.events| + 1 && t.j.events[..|s.j.events|] == s.j.events
    && (|t.j.events| > |s.j.events| ==> Subject(t.j.events[|s.j.events|]).None?)
  }

  lemma PlainModelMovesKeepRows(s: System, m: Move)
    requires m.Ask? || m.CallProvider? || m.ProviderAnswers? || m.ProviderRefuses? || m.ProviderFails? || m.NextStep?
        || m.BeginCorrection?
    ensures KeepsRows(s, Next(s, m))
  {
    hide ToolNext, ProcessNext, LeavingNext, RecoveryNext, ControllerNext;
  }

  lemma ToolRunsKeepRows(s: System, id: ToolId, tool: Tool, args: nat, success: bool, output: nat)
    ensures KeepsRows(s, OnPrepareTool(s, id, tool, args)) && KeepsRows(s, OnBeginTool(s, id))
        && KeepsRows(s, OnRunLocal(s, success, output))
  {
  }

  lemma ToolResultsKeepRows(s: System, id: ToolId)
    ensures KeepsRows(s, OnRecordTool(s)) && KeepsRows(s, OnDenyTool(s, id)) && KeepsRows(s, OnFetchReceipt(s, id))
  {
  }

  lemma WorkerToolMovesKeepRows(s: System, m: Move)
    requires WorkerToolMove(m)
    ensures KeepsRows(s, Next(s, m))
  {
    hide KeepsRows, OnPrepareTool, OnBeginTool, OnRunLocal, OnRecordTool, OnDenyTool, OnFetchReceipt, ModelNext,
        ProcessNext, LeavingNext, RecoveryNext, ControllerNext;
    match m
    case PrepareTool(id, tool, args) => ToolRunsKeepRows(s, id, tool, args, true, 0);
    case BeginTool(id) => ToolRunsKeepRows(s, id, SaveArtifact, 0, true, 0);
    case RunLocal(success, output) => ToolRunsKeepRows(s, ToolId(0, 0), SaveArtifact, 0, success, output);
    case RecordTool => ToolResultsKeepRows(s, ToolId(0, 0));
    case DenyTool(id) => ToolResultsKeepRows(s, id);
    case FetchReceipt(id) => ToolResultsKeepRows(s, id);
  }

  lemma AppendKeepsRows(s: System, t: System, e: Event)
    requires t.j.models == s.j.models && t.c.grants == s.c.grants && t.j.events == s.j.events + [e] && Subject(e).None?
    ensures KeepsRows(s, t)
  {
    assert t.j.events[..|s.j.events|] == s.j.events && t.j.events[|s.j.events|] == e;
  }

  lemma NothingKeepsRows(s: System, t: System)
    requires t.j.models == s.j.models && t.c.grants == s.c.grants && t.j.events == s.j.events
    ensures KeepsRows(s, t)
  {
  }

  lemma NoteKeepsRows(s: System)
    ensures KeepsRows(s, OnNote(s)) && KeepsRows(s, OnCorrect(s))
  {
    hide KeepsRows;
    NothingKeepsRows(s, s);
    if s.w.Idle? { AppendKeepsRows(s, OnNote(s), StartedEvent); }
    if s.w.Correcting? { AppendKeepsRows(s, OnCorrect(s), CorrectionEvent); }
  }

  lemma FinishKeepsRows(s: System, kind: AttemptState, why: string)
    ensures KeepsRows(s, OnFinish(s, kind, why))
  {
    hide KeepsRows;
    if OnFinish(s, kind, why).j.events == s.j.events {
      NothingKeepsRows(s, OnFinish(s, kind, why));
    } else {
      AppendKeepsRows(s, OnFinish(s, kind, why), FinishEvent(kind, why));
    }
  }

  lemma SuspendKeepsRows(s: System, why: string)
    ensures KeepsRows(s, OnSuspend(s, why))
  {
    hide KeepsRows;
    NothingKeepsRows(s, s);
    if MayLeave(s.w) && SuspendReason(why) {
      AppendKeepsRows(s, OnSuspend(s, why), SuspensionEvent(s.j.nextStep, why));
    }
  }

  lemma LeavingMovesKeepRows(s: System, m: Move)
    requires LeavingMove(m)
    ensures KeepsRows(s, Next(s, m))
  {
    hide KeepsRows, OnNote, OnCorrect, OnFinish, OnSuspend, ModelNext, ToolNext, ProcessNext, RecoveryNext,
        ControllerNext;
    match m
    case FinishRun(kind, why) => FinishKeepsRows(s, kind, why);
    case SuspendRun(why) => SuspendKeepsRows(s, why);
    case AppendStarted => NoteKeepsRows(s);
    case Correct => NoteKeepsRows(s);
  }

  lemma ProcessMovesKeepRows(s: System, m: Move)
    requires ToolMove(m) && !WorkerToolMove(m)
    ensures KeepsRows(s, Next(s, m))
  {
    hide Next, KeepsRows;
    ProcessMovesKeepModels(s, m);
    WorkerMovesKeepController(s, m);
    NothingKeepsRows(s, Next(s, m));
  }

  lemma ProcessMovesKeepModels(s: System, m: Move)
    requires ToolMove(m) && !WorkerToolMove(m)
    ensures Next(s, m).j.models == s.j.models && Next(s, m).j.events == s.j.events
  {
    hide ModelNext, ToolNext, LeavingNext, RecoveryNext, ControllerNext;
  }

  lemma WorkerMovesReported(s: System, m: Move)
    requires MoneyInv(s) && Reported(s) && (ModelMove(m) || ToolMove(m) || LeavingMove(m))
    ensures Reported(Next(s, m))
  {
    hide MoneyInv, Reported, ToolNext, ProcessNext, LeavingNext, RecoveryNext, ControllerNext;
    match m
    case OpenStep => OpenStepReported(s);
    case Retry => RetryReported(s);
    case MarkSent => MarkSentReported(s);
    case Record => RecordReported(s);
    case MarkLost => RecordReported(s);
    case _ => PlainMovesReported(s, m);
  }

  lemma PlainMovesReported(s: System, m: Move)
    requires Reported(s) && (ModelMove(m) || ToolMove(m) || LeavingMove(m))
    requires !m.OpenStep? && !m.Retry? && !m.MarkSent? && !m.Record? && !m.MarkLost?
    ensures Reported(Next(s, m))
  {
    hide Reported, Next;
    if ModelMove(m) {
      PlainModelMovesKeepRows(s, m);
    } else if WorkerToolMove(m) {
      WorkerToolMovesKeepRows(s, m);
    } else if ToolMove(m) {
      ProcessMovesKeepRows(s, m);
    } else {
      LeavingMovesKeepRows(s, m);
    }
    ReportedFrame(s, Next(s, m));
  }

  lemma AnswerReported(s: System, t: Terms)
    requires Safe(s) && Reported(s)
    ensures Reported(OnAnswerPermit(s, t))
  {
    hide Says, SaysOnly, Unmentioned, Ledger.Inv, JournalInv, GrantInv, CallInv, EventInv, AnswerInv;
    var u := OnAnswerPermit(s, t);
    if s.rpc.AskPermit? && Authorize(s.spec, s.c, s.rpc.step, s.rpc.history, t).Ok? {
      AuthorizeGrants(s, s.rpc.step, s.rpc.history, t);
      var p := Authorize(s.spec, s.c, s.rpc.step, s.rpc.history, t).value.permit;
      UngrantedMayFail(s, p);
      UnmentionedSaysOnly(s.j.events, p, FailureEvent(s.rpc.step, p, true));
      forall q | q in u.c.grants ensures GrantReported(u.j, q, u.c.grants[q].step) {
        if q != p { assert GrantReported(s.j, q, s.c.grants[q].step); }
      }
    }
  }

  lemma OtherMovesKeepGrants(s: System, m: Move)
    requires !ModelMove(m) && !ToolMove(m) && !LeavingMove(m) && !m.AnswerPermit?
    ensures Next(s, m).c.grants == s.c.grants
  {
    hide ModelNext, ToolNext, ProcessNext, LeavingNext;
    if m.Deliver? && OnDeliver(s, m.sequence) != s {
      DrainKeepsGrants(s.spec, s.c.(inbox := s.c.inbox[m.sequence := s.j.events[m.sequence - 1]]));
    }
  }

  lemma {:induction false} DrainKeepsGrants(spec: Spec, c: Controller)
    requires Drain(spec, c).Ok?
    ensures Drain(spec, c).value.grants == c.grants
    decreases Buffered(c)
  {
    var n := c.lastSequence + 1;
    if n in c.inbox {
      var a := ApplyEvent(spec, c, c.inbox[n]).value;
      var d := a.(lastSequence := n, applied := a.applied + [c.inbox[n]]);
      assert n in Buffered(c) && n !in Buffered(d) && Buffered(d) <= Buffered(c);
      DrainKeepsGrants(spec, d);
    }
  }

  lemma NextKeepsReported(s: System, m: Move)
    requires Safe(s) && Reported(s)
    ensures Reported(Next(s, m))
  {
    hide MoneyInv, Ledger.Inv, Reported, Next;
    if ModelMove(m) || ToolMove(m) || LeavingMove(m) {
      WorkerMovesReported(s, m);
    } else if m.AnswerPermit? {
      AnswerReported(s, m.terms);
      AnswerIsAMove(s, m.terms);
    } else {
      ControllerMovesKeepJournal(s, m);
      OtherMovesKeepGrants(s, m);
      ReportedFrame(s, Next(s, m));
    }
  }

  lemma AnswerIsAMove(s: System, t: Terms)
    ensures Next(s, AnswerPermit(t)) == OnAnswerPermit(s, t)
  {
    hide OnAnswerPermit, ModelNext, ToolNext, ProcessNext, LeavingNext, RecoveryNext;
  }

  // ---- An applied event has had its effect ----

  ghost predicate Took(spec: Spec, permits: seq<Ledger.Permit>, e: Event) {
    match e
    case FailureEvent(_, p, notSent) => notSent ==> p < |permits| && !OpenCall(spec, permits[p])
    case AnswerEvent(_, p, response) => p < |permits| && permits[p].response == Some(response)
    case _ => true
  }

  ghost predicate AppliedTook(s: System) {
    forall i :: 0 <= i < s.c.lastSequence && i < |s.j.events| ==> Took(s.spec, s.c.ledger.permits, s.j.events[i])
  }

  lemma TookStays(spec: Spec, l: Ledger.State, t: Ledger.State, e: Event)
    requires Ledger.Evolves(l, t) && Took(spec, l.permits, e)
    ensures Took(spec, t.permits, e)
  {
    if Subject(e).Some? && Subject(e).value < |l.permits| {
      assert Ledger.RowEvolves(l.permits[Subject(e).value], t.permits[Subject(e).value]);
    }
  }

  lemma FailTakes(l: Ledger.State, p: nat)
    requires p < |l.permits|
    ensures |Ledger.Fail(l, p, true).permits| == |l.permits|
    ensures
      var q := Ledger.Fail(l, p, true).permits[p];
      !Ledger.Pending(q) || q.response.Some?
  {
  }

  lemma RespondTakes(l: Ledger.State, p: nat, response: Ledger.Response)
    requires Ledger.Respond(l, p, response).Ok?
    ensures p < |Ledger.Respond(l, p, response).value.permits|
    ensures Ledger.Respond(l, p, response).value.permits[p].response == Some(response)
  {
  }

  lemma ApplyTakes(s: System, e: Event)
    requires ApplyEvent(s.spec, s.c, e).Ok?
    ensures Took(s.spec, ApplyEvent(s.spec, s.c, e).value.ledger.permits, e)
  {
    hide Ledger.Fail, Ledger.Respond, Ledger.Pending;
    match e
    case AnswerEvent(_, p, response) => RespondTakes(s.c.ledger, p, response);
    case FailureEvent(_, p, notSent) => if notSent { FailTakes(s.c.ledger, p); }
    case _ =>
  }

  lemma {:induction false} DrainTakes(s: System)
    requires Safe(s) && Draining(s.c, s.j.events) && AppliedTook(s) && Drain(s.spec, s.c).Ok?
    ensures AppliedTook(s.(c := Drain(s.spec, s.c).value))
    decreases Buffered(s.c)
  {
    hide Ledger.Inv, MoneyInv, Took, ApplyEvent, Ledger.Evolves;
    var n := s.c.lastSequence + 1;
    if n in s.c.inbox {
      var e := s.c.inbox[n];
      assert e in s.j.events;
      ApplyKeepsSafe(s, e);
      ApplyEvolves(s, e);
      ApplyTakes(s, e);
      var a := s.(c := ApplyEvent(s.spec, s.c, e).value);
      var d := a.(c := a.c.(lastSequence := n, applied := a.c.applied + [e]));
      InboxFrame(a, d);
      assert n in Buffered(s.c) && n !in Buffered(d.c) && Buffered(d.c) <= Buffered(s.c);
      forall i | 0 <= i < n && i < |s.j.events| ensures Took(d.spec, d.c.ledger.permits, s.j.events[i]) {
        if i < s.c.lastSequence { TookStays(s.spec, s.c.ledger, d.c.ledger, s.j.events[i]); }
      }
      assert d.c.applied == s.j.events[..n];
      DrainTakes(d);
    }
  }

  lemma DeliverTakes(s: System, n: nat)
    requires Safe(s) && DeliveryInv(s) && AppliedTook(s)
    ensures AppliedTook(OnDeliver(s, n))
  {
    hide Ledger.Inv, MoneyInv, Took;
    if OnDeliver(s, n) != s {
      var u := s.(c := s.c.(inbox := s.c.inbox[n := s.j.events[n - 1]]));
      InboxFrame(s, u);
      assert Draining(u.c, u.j.events);
      DrainTakes(u);
    }
  }

  lemma AnswerEvolves(s: System, t: Terms)
    requires Safe(s)
    ensures Ledger.Evolves(s.c.ledger, OnAnswerPermit(s, t).c.ledger)
  {
    hide Ledger.Inv, JournalInv, GrantInv, CallInv, EventInv, AnswerInv, Ledger.Evolves, Authorize;
    Ledger.UnchangedKeepsInv(s.c.ledger);
    if s.rpc.AskPermit? && Authorize(s.spec, s.c, s.rpc.step, s.rpc.history, t).Ok? {
      AuthorizeGrants(s, s.rpc.step, s.rpc.history, t);
    }
  }

  lemma DeliverEvolves(s: System, n: nat)
    requires Safe(s) && DeliveryInv(s)
    ensures Ledger.Evolves(s.c.ledger, OnDeliver(s, n).c.ledger)
  {
    hide Ledger.Inv, MoneyInv, Ledger.Evolves;
    Ledger.UnchangedKeepsInv(s.c.ledger);
    if OnDeliver(s, n) != s {
      var u := s.(c := s.c.(inbox := s.c.inbox[n := s.j.events[n - 1]]));
      InboxFrame(s, u);
      DrainEvolves(u);
    }
  }

  lemma RecoveryEvolves(s: System, k: nat, p: nat, reading: Reading)
    requires Safe(s)
    ensures Ledger.Evolves(s.c.ledger, OnRecoverRow(s, k).c.ledger)
        && Ledger.Evolves(s.c.ledger, OnRecoverUnsent(s, k, p).c.ledger)
    ensures Ledger.Evolves(s.c.ledger, OnRecoverFirst(s).c.ledger)
        && Ledger.Evolves(s.c.ledger, OnConclude(s, reading).c.ledger)
  {
    hide Ledger.Inv, MoneyInv, Ledger.Evolves, Ledger.Fail, Decide;
    Ledger.UnchangedKeepsInv(s.c.ledger);
    DecideShape(s.spec, s.j, s.c, reading);
    if k in s.j.models && s.j.models[k].permit.Some? {
      Ledger.FailKeepsInv(s.c.ledger, s.j.models[k].permit.value, s.j.models[k].state.CallNotSent?);
    }
    Ledger.FailKeepsInv(s.c.ledger, p, true);
    Ledger.FailKeepsInv(s.c.ledger, s.c.firstPermit, true);
  }

  lemma RestEvolves(s: System, op: Ledger.Op, denied: Option<string>, refused: bool, kind: AttemptState, why: string)
    requires Safe(s)
    ensures Ledger.Evolves(s.c.ledger, OnElsewhere(s, op).c.ledger)
        && Ledger.Evolves(s.c.ledger, OnControllerRestart(s).c.ledger)
    ensures OnStart(s, denied).c.ledger == s.c.ledger && OnReady(s, refused).c.ledger == s.c.ledger
        && OnRetire(s, kind, why).c.ledger == s.c.ledger
  {
    hide Ledger.Inv, MoneyInv, Ledger.Evolves, Ledger.Step, Ledger.Restart;
    Ledger.UnchangedKeepsInv(s.c.ledger);
    Ledger.StepKeepsInv(s.c.ledger, op);
    Ledger.RestartKeepsInv(s.c.ledger);
  }

  /** Whoever moves, the rows of the ledger only evolve. */
  lemma NextEvolves(s: System, m: Move)
    requires Safe(s) && DeliveryInv(s)
    ensures Ledger.Evolves(s.c.ledger, Next(s, m).c.ledger)
  {
    Ledger.UnchangedKeepsInv(s.c.ledger);
    if ModelMove(m) || ToolMove(m) || LeavingMove(m) {
      WorkerMovesKeepController(s, m);
    } else {
      ControllerMovesEvolve(s, m);
    }
  }

  lemma ControllerMovesEvolve(s: System, m: Move)
    requires Safe(s) && DeliveryInv(s) && !ModelMove(m) && !ToolMove(m) && !LeavingMove(m)
    ensures Ledger.Evolves(s.c.ledger, Next(s, m).c.ledger)
  {
    hide Ledger.Inv, MoneyInv, DeliveryInv, Ledger.Evolves, OnDeliver, OnAnswerPermit, OnElsewhere, OnRecoverRow,
        OnRecoverUnsent, OnRecoverFirst,
      OnConclude, OnStart, OnReady, OnRetire, OnControllerRestart, ModelNext, ToolNext, ProcessNext, LeavingNext;
    Ledger.UnchangedKeepsInv(s.c.ledger);
    match m
    case Deliver(n) => DeliverEvolves(s, n);
    case AnswerPermit(t) => AnswerEvolves(s, t);
    case RecoverRow(k) => RecoveryEvolves(s, k, 0, Readable);
    case RecoverUnsent(k, p) => RecoveryEvolves(s, k, p, Readable);
    case RecoverFirst => RecoveryEvolves(s, 0, 0, Readable);
    case Conclude(reading) => RecoveryEvolves(s, 0, 0, reading);
    case Elsewhere(op) => RestEvolves(s, op, None, true, Blocked, "");
    case ControllerRestart => RestEvolves(s, Ledger.RestartOp, None, true, Blocked, "");
    case Start(denied) => RestEvolves(s, Ledger.RestartOp, denied, true, Blocked, "");
    case WorkerReady(refused) => RestEvolves(s, Ledger.RestartOp, None, refused, Blocked, "");
    case Retire(kind, why) => RestEvolves(s, Ledger.RestartOp, None, true, kind, why);
  }

  lemma NextKeepsTook(s: System, m: Move)
    requires Safe(s) && DeliveryInv(s) && AppliedTook(s)
    ensures AppliedTook(Next(s, m))
  {
    hide Ledger.Inv, MoneyInv, Took, Ledger.Evolves, Next;
    if m.Deliver? {
      DeliverTakes(s, m.sequence);
      DeliverIsAMove(s, m.sequence);
    } else {
      var t := Next(s, m);
      NextEvolves(s, m);
      JournalGrows(s, m);
      OtherMovesKeepInbox(s, m);
      SpecStays(s, m);
      forall i | 0 <= i < t.c.lastSequence && i < |t.j.events| ensures Took(t.spec, t.c.ledger.permits, t.j.events[i]) {
        assert t.j.events[..|s.j.events|][i] == t.j.events[i];
        TookStays(s.spec, s.c.ledger, t.c.ledger, s.j.events[i]);
      }
    }
  }

  lemma DeliverIsAMove(s: System, n: nat)
    ensures Next(s, Deliver(n)) == OnDeliver(s, n)
  {
    hide OnDeliver, ModelNext, ToolNext, ProcessNext, LeavingNext, ControllerNext;
  }

  lemma WorkerSpecStays(s: System, m: Move)
    requires ModelMove(m) || LeavingMove(m)
    ensures Next(s, m).spec == s.spec
  {
    hide ToolNext, ProcessNext, RecoveryNext, ControllerNext;
  }

  lemma ToolSpecStays(s: System, m: Move)
    requires ToolMove(m)
    ensures Next(s, m).spec == s.spec
  {
    hide ModelNext, LeavingNext, RecoveryNext, ControllerNext;
  }

  lemma ControllerSpecStays(s: System, m: Move)
    requires !ModelMove(m) && !ToolMove(m) && !LeavingMove(m)
    ensures Next(s, m).spec == s.spec
  {
    hide ModelNext, ToolNext, ProcessNext, LeavingNext;
  }

  lemma SpecStays(s: System, m: Move)
    ensures Next(s, m).spec == s.spec
  {
    hide Next;
    if ModelMove(m) || LeavingMove(m) {
      WorkerSpecStays(s, m);
    } else if ToolMove(m) {
      ToolSpecStays(s, m);
    } else {
      ControllerSpecStays(s, m);
    }
  }

  // ---- Every run ----

  /** In every run each resolved call is journaled exactly as its row says, and what is applied of the journal has had
      its effect. */
  lemma {:induction false} RunKeepsReports(s: System, moves: seq<Move>)
    requires Created(s)
    ensures Inv(Run(s, moves)) && Reported(Run(s, moves)) && AppliedTook(Run(s, moves))
  {
    hide Next, Inv, Reported, AppliedTook;
    RunKeepsInv(s, moves);
    if moves == [] {
      CreatedReports(s);
    } else {
      var t := Run(s, moves[..|moves| - 1]);
      RunKeepsReports(s, moves[..|moves| - 1]);
      PartsOfInv(t);
      NextKeepsReported(t, moves[|moves| - 1]);
      NextKeepsTook(t, moves[|moves| - 1]);
    }
  }

  lemma PartsOfInv(s: System)
    requires Inv(s)
    ensures Safe(s) && DeliveryInv(s) && StopInv(s)
  {
  }

  lemma CreatedReports(s: System)
    requires Created(s)
    ensures Reported(s) && AppliedTook(s)
  {
  }
}
