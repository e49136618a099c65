/** The moves of the controller and of the rest of the company keep the money invariant. */
module WorkerController {
  import opened Wrappers
  import opened AttemptStates
  import opened Journal
  import opened WorkerProtocol
  import opened WorkerRuns
  import opened WorkerSafety
  import Ledger

  ghost predicate Safe(s: System) {
    Ledger.Inv(s.c.ledger) && MoneyInv(s)
  }

  /** No permit of another owner is mentioned anywhere in this attempt. */
  lemma ForeignPermitMayFail(s: System, p: nat)
    requires MoneyInv(s) && p < |s.c.ledger.permits| && !BelongsTo(s.spec, s.c.ledger.permits[p])
    ensures MayFail(s, p)
  {
    hide Ledger.Inv;
    UngrantedMayFail(s, p);
  }

  /** Neither is a permit that was not granted, or whose source is not a step of this attempt. */
  lemma UngrantedMayFail(s: System, p: nat)
    requires MoneyInv(s)
    requires p !in s.c.grants || (p < |s.c.ledger.permits| && !BelongsTo(s.spec, s.c.ledger.permits[p]))
    ensures MayFail(s, p) && Uncalled(s.calls, p) && Unmentioned(s.j.events, p)
  {
    forall q | q in s.c.grants ensures GrantOk(s.spec, s.j, s.c.grants, s.c.ledger.permits, q) && q != p {
    }
    forall i | 0 <= i < |s.calls| ensures s.calls[i].permit != p {
      assert CallOk(s.j, s.c.grants, s.c.ledger.permits, s.calls[i]);
    }
    forall i | 0 <= i < |s.j.events| ensures Subject(s.j.events[i]) != Some(p) {
      assert EventOk(s, s.j.events[i]);
    }
    forall k | k in s.j.models ensures s.j.models[k].permit != Some(p) {
      assert RowOk(s.spec, s.j, s.c.grants, k);
    }
  }

  /** A permit of step `k` that a failure event, or an unsent row, speaks of. */
  lemma ReportedUnsentMayFail(s: System, p: nat, k: nat)
    requires MoneyInv(s) && p in s.c.grants && s.c.grants[p].step == k && k in s.j.models && Unsent(s.calls, p)
    requires s.j.models[k].state.CallSent? || s.j.models[k].state.Responded? ==> s.j.models[k].permit != Some(p)
    requires s.w.Permitted? ==> s.w.permit != p
    ensures MayFail(s, p)
  {
    forall i | i in s.j.models && s.j.models[i].permit == Some(p) ensures i == k {
      assert RowOk(s.spec, s.j, s.c.grants, i);
    }
  }

  lemma FailKeepsSafe(s: System, p: nat, notSent: bool)
    requires Safe(s) && (notSent ==> MayFail(s, p))
    ensures Safe(s.(c := s.c.(ledger := Ledger.Fail(s.c.ledger, p, notSent))))
  {
    hide Ledger.Inv, MoneyInv;
    var t := s.(c := s.c.(ledger := Ledger.Fail(s.c.ledger, p, notSent)));
    Ledger.FailKeepsInv(s.c.ledger, p, notSent);
    FailFlips(s.c.ledger, p, notSent);
    LedgerFrame(s, t);
  }

  lemma FailFlips(l: Ledger.State, p: nat, notSent: bool)
    ensures
      var l' := Ledger.Fail(l, p, notSent);
      |l'.permits| == |l.permits| &&
      forall q :: 0 <= q < |l.permits| && l'.permits[q].state.NotSent? && !l.permits[q].state.NotSent? ==>
          q == p && notSent
  {
  }

  lemma RespondKeepsSafe(s: System, p: nat, response: Ledger.Response)
    requires Safe(s) && Ledger.Respond(s.c.ledger, p, response).Ok?
    ensures Safe(s.(c := s.c.(ledger := Ledger.Respond(s.c.ledger, p, response).value)))
  {
    hide Ledger.Inv, MoneyInv, Ledger.Respond;
    Ledger.RespondKeepsInv(s.c.ledger, p, response);
    RespondFlips(s.c.ledger, p, response);
    LedgerFrame(s, s.(c := s.c.(ledger := Ledger.Respond(s.c.ledger, p, response).value)));
  }

  lemma ReportKeepsSafe(s: System, i: nat)
    requires Safe(s) && i < |s.j.events| && s.j.events[i].FailureEvent?
    ensures
      var e := s.j.events[i];
      Safe(s.(c := s.c.(ledger := Ledger.Fail(s.c.ledger, e.permit, e.notSent))))
  {
    hide Ledger.Inv, Ledger.Fail, JournalInv, GrantInv, CallInv, AnswerInv;
    var e := s.j.events[i];
    assert EventOk(s, e);
    if e.notSent {
      assert Subject(e) == Some(e.permit);
      ReportedUnsentMayFail(s, e.permit, e.step);
    }
    FailKeepsSafe(s, e.permit, e.notSent);
  }

  /** Applying an event of the journal. */
  lemma ApplyKeepsSafe(s: System, e: Event)
    requires Safe(s) && e in s.j.events && ApplyEvent(s.spec, s.c, e).Ok?
    ensures Safe(s.(c := ApplyEvent(s.spec, s.c, e).value))
  {
    hide Ledger.Inv, MoneyInv, Ledger.Respond, Ledger.Fail;
    var i :| 0 <= i < |s.j.events| && s.j.events[i] == e;
    match e
    case AnswerEvent(k, p, response) => RespondKeepsSafe(s, p, response);
    case FailureEvent(k, p, notSent) => ReportKeepsSafe(s, i);
    case _ => LedgerFrame(s, s.(c := ApplyEvent(s.spec, s.c, e).value));
  }

  lemma RespondFlips(l: Ledger.State, p: nat, response: Ledger.Response)
    requires Ledger.Respond(l, p, response).Ok?
    ensures
      var l' := Ledger.Respond(l, p, response).value;
      |l'.permits| == |l.permits| &&
      forall q :: 0 <= q < |l.permits| && l'.permits[q].state.NotSent? ==> l.permits[q].state.NotSent?
  {
  }

  /** Bookkeeping of the inbox does not touch the money invariant. */
  lemma InboxFrame(s: System, t: System)
    requires Safe(s) && t == s.(c := s.c.(inbox := t.c.inbox, lastSequence := t.c.lastSequence, applied := t.c.applied))
    ensures Safe(t)
  {
    hide Ledger.Inv, MoneyInv;
    LedgerFrame(s, t);
  }

  ghost predicate FromJournal(inbox: map<nat, Event>, events: seq<Event>) {
    forall n :: n in inbox ==> 1 <= n <= |events| && inbox[n] == events[n - 1]
  }

  lemma {:induction false} DrainKeepsSafe(s: System)
    requires Safe(s) && FromJournal(s.c.inbox, s.j.events) && Drain(s.spec, s.c).Ok?
    ensures Safe(s.(c := Drain(s.spec, s.c).value))
    decreases Buffered(s.c)
  {
    hide Ledger.Inv, MoneyInv;
    var n := s.c.lastSequence + 1;
    if n in s.c.inbox {
      var e := s.c.inbox[n];
      assert e in s.j.events;
      ApplyKeepsSafe(s, e);
      var a := s.(c := ApplyEvent(s.spec, s.c, e).value);
      var d := a.(c := a.c.(lastSequence := n, applied := a.c.applied + [e]));
      InboxFrame(a, d);
      assert n in Buffered(s.c) && n !in Buffered(d.c) && Buffered(d.c) <= Buffered(s.c);
      DrainKeepsSafe(d);
    }
  }

  lemma DeliverKeepsSafe(s: System, n: nat)
    requires Safe(s) && FromJournal(s.c.inbox, s.j.events)
    ensures Safe(OnDeliver(s, n))
  {
    hide Ledger.Inv, MoneyInv;
    if OnDeliver(s, n) != s {
      var t := s.(c := s.c.(inbox := s.c.inbox[n := s.j.events[n - 1]]));
      InboxFrame(s, t);
      DrainKeepsSafe(t);
    }
  }

  // ---- Granting a permit ----

  lemma ReuseFirst(l: Ledger.State, p: nat)
    requires Ledger.Inv(l) && p < |l.permits| && Ledger.Pending(l.permits[p])
    ensures
      var l' := l.(permits := l.permits[p := l.permits[p].(state := Ledger.Sent)]);
      Ledger.Inv(l') && Ledger.Evolves(l, l')
  {
    Ledger.RowChangeKeepsInv(l, p, l.permits[p].(state := Ledger.Sent), l.safetyHold);
  }

  lemma PrepareFresh(l: Ledger.State, call: Ledger.Call)
    requires Ledger.Inv(l) && call.source.Some? && Ledger.Prepare(l, call).result.Ok?
    ensures
      var o, id := Ledger.Prepare(l, call).next, Ledger.Prepare(l, call).result.value.id;
      && Ledger.Inv(o) && Ledger.Evolves(l, o) && id < |o.permits| && !o.permits[id].state.NotSent?
      && o.permits[id].source == call.source && o.permits[id].request == call.request
      && (forall p :: 0 <= p < |l.permits| ==> o.permits[p] == l.permits[p])
  {
    Ledger.PrepareKeepsInv(l, call);
  }

  /** A usable permit of that step and request, never granted before. */
  ghost predicate GrantedFor(s: System, k: nat, history: seq<nat>, a: Authorization) {
    && a.permit !in s.c.grants
    && a.c == s.c.(ledger := a.c.ledger, grants := s.c.grants[a.permit := Grant(k, s.c.epoch)])
    && Ledger.Inv(a.c.ledger) && Ledger.Evolves(s.c.ledger, a.c.ledger)
    && a.permit < |a.c.ledger.permits| && !a.c.ledger.permits[a.permit].state.NotSent?
    && a.c.ledger.permits[a.permit].source == Some(SourceOf(s.spec, k))
    && a.c.ledger.permits[a.permit].request == Ledger.StepRequest(k, history)
    && (forall p :: 0 <= p < |s.c.ledger.permits| && a.c.ledger.permits[p].state.NotSent? ==>
          s.c.ledger.permits[p].state.NotSent?)
  }

  lemma ReuseGrants(s: System, k: nat, history: seq<nat>, t: Terms)
    requires Safe(s) && Authorize(s.spec, s.c, k, history, t).Ok? && FirstReusable(s.c, k)
    ensures GrantedFor(s, k, history, Authorize(s.spec, s.c, k, history, t).value)
  {
    hide Ledger.Inv, Ledger.Evolves, Ledger.Prepare, JournalInv, CallInv, EventInv, PhaseInv, AnswerInv;
    ReuseFirst(s.c.ledger, s.c.firstPermit);
  }

  lemma PrepareGrants(s: System, k: nat, history: seq<nat>, t: Terms)
    requires Safe(s) && Authorize(s.spec, s.c, k, history, t).Ok? && !FirstReusable(s.c, k)
    ensures GrantedFor(s, k, history, Authorize(s.spec, s.c, k, history, t).value)
  {
    hide Ledger.Inv, Ledger.Evolves, Ledger.Prepare, MoneyInv;
    PrepareFresh(s.c.ledger, CallFor(s.spec, s.c, k, history, t));
  }

  /** What a successful authorization returns. */
  lemma AuthorizeGrants(s: System, k: nat, history: seq<nat>, t: Terms)
    requires Safe(s) && Authorize(s.spec, s.c, k, history, t).Ok?
    ensures GrantedFor(s, k, history, Authorize(s.spec, s.c, k, history, t).value)
  {
    hide Safe, GrantedFor, Authorize;
    if FirstReusable(s.c, k) {
      ReuseGrants(s, k, history, t);
    } else {
      PrepareGrants(s, k, history, t);
    }
  }

  lemma GrantFrameRows(s: System, t: System, k: nat, p: nat)
    requires MoneyInv(s) && p !in s.c.grants && k in s.j.models
    requires t == s.(c := s.c.(grants := s.c.grants[p := Grant(k, s.c.epoch)]))
    requires p < |s.c.ledger.permits| && s.c.ledger.permits[p].source == Some(SourceOf(s.spec, k))
    requires s.c.ledger.permits[p].request == Ledger.StepRequest(k, s.j.models[k].request)
    ensures JournalInv(t) && GrantInv(t)
  {
    forall i | i in t.j.models ensures RowOk(t.spec, t.j, t.c.grants, i) {
      assert RowOk(s.spec, s.j, s.c.grants, i);
    }
    forall q | q in t.c.grants ensures GrantOk(t.spec, t.j, t.c.grants, t.c.ledger.permits, q) {
      if q != p { assert GrantOk(s.spec, s.j, s.c.grants, s.c.ledger.permits, q); }
    }
  }

  lemma GrantFrameCalls(s: System, t: System, k: nat, p: nat)
    requires MoneyInv(s) && p !in s.c.grants && k in s.j.models
    requires t == s.(c := s.c.(grants := s.c.grants[p := Grant(k, s.c.epoch)]))
    ensures CallInv(t) && EventInv(t)
  {
    forall i | 0 <= i < |t.calls| ensures CallOk(t.j, t.c.grants, t.c.ledger.permits, t.calls[i]) {
      assert CallOk(s.j, s.c.grants, s.c.ledger.permits, s.calls[i]);
    }
    forall i | 0 <= i < |t.j.events| ensures EventOk(t, t.j.events[i]) {
      assert EventOk(s, s.j.events[i]);
    }
  }

  /** A new grant of a permit that fits its row. */
  lemma GrantFrame(s: System, t: System, k: nat, p: nat)
    requires MoneyInv(s) && p !in s.c.grants && k in s.j.models
    requires t == s.(c := s.c.(grants := s.c.grants[p := Grant(k, s.c.epoch)]))
    requires p < |s.c.ledger.permits| && s.c.ledger.permits[p].source == Some(SourceOf(s.spec, k))
    requires s.c.ledger.permits[p].request == Ledger.StepRequest(k, s.j.models[k].request)
    ensures MoneyInv(t)
  {
    hide JournalInv, GrantInv, CallInv, EventInv;
    GrantFrameRows(s, t, k, p);
    GrantFrameCalls(s, t, k, p);
  }

  lemma AnswerPermitKeeps(s: System, terms: Terms)
    requires Safe(s)
    ensures Safe(OnAnswerPermit(s, terms))
  {
    hide Ledger.Inv, JournalInv, GrantInv, CallInv, EventInv, AnswerInv, Authorize;
    if s.rpc.AskPermit? {
      var k, a := s.rpc.step, Authorize(s.spec, s.c, s.rpc.step, s.rpc.history, terms);
      if a.Ok? {
        AuthorizeGrants(s, k, s.rpc.history, terms);
        UngrantedMayFail(s, a.value.permit);
        var u := s.(c := s.c.(ledger := a.value.c.ledger));
        LedgerFrame(s, u);
        var t := s.(c := a.value.c);
        GrantFrame(u, t, k, a.value.permit);
        assert Uncalled(t.calls, a.value.permit) && Unmentioned(t.j.events, a.value.permit);
        AnswerFrame(t, OnAnswerPermit(s, terms));
      } else {
        AnswerFrame(s, OnAnswerPermit(s, terms));
      }
    }
  }

  lemma AnswerFrame(s: System, t: System)
    requires Safe(s) && t == s.(w := t.w, rpc := NoRpc, connected := t.connected) && PhaseInv(t)
    ensures Safe(t)
  {
    hide Ledger.Inv;
    forall i | 0 <= i < |s.j.events| ensures EventOk(t, s.j.events[i]) {
      assert EventOk(s, s.j.events[i]);
    }
  }

  // ---- Restart, start and recovery ----

  lemma ControllerRestartKeeps(s: System)
    requires Safe(s)
    ensures Safe(OnControllerRestart(s))
  {
    hide Ledger.Inv, JournalInv, GrantInv, CallInv;
    var u := s.(rpc := NoRpc, connected := false);
    AnswerFrame(s, u);
    Ledger.RestartKeepsInv(s.c.ledger);
    LedgerFrame(u, OnControllerRestart(s));
  }

  lemma StartKeeps(s: System, denied: Option<string>)
    requires Safe(s)
    ensures Safe(OnStart(s, denied))
  {
    hide Ledger.Inv;
    if OnStart(s, denied) != s {
      var u := s.(c := OnStart(s, denied).c);
      LedgerFrame(s, u);
      AnswerFrame(u, OnStart(s, denied));
    }
  }

  lemma SameLedgerFrame(s: System, t: System)
    requires MoneyInv(s) && SameExceptPermits(s, t) && t.c.ledger == s.c.ledger
    ensures MoneyInv(t)
  {
    LedgerFrame(s, t);
  }

  lemma ReadyKeeps(s: System, refused: bool)
    requires Safe(s)
    ensures Safe(OnReady(s, refused))
  {
    hide Ledger.Inv, MoneyInv;
    SameLedgerFrame(s, OnReady(s, refused));
  }

  lemma RetireKeeps(s: System, kind: AttemptState, why: string)
    requires Safe(s)
    ensures Safe(OnRetire(s, kind, why))
  {
    hide Ledger.Inv, MoneyInv;
    SameLedgerFrame(s, OnRetire(s, kind, why));
  }

  lemma ConcludeKeeps(s: System, reading: Reading)
    requires Safe(s)
    ensures Safe(OnConclude(s, reading))
  {
    hide Ledger.Inv, MoneyInv;
    if MayRecover(s) {
      DecideShape(s.spec, s.j, s.c, reading);
      SameLedgerFrame(s, OnConclude(s, reading));
    }
  }

  lemma DecideShape(spec: Spec, j: Rows, c: Controller, reading: Reading)
    ensures
      var d := Decide(spec, j, c, reading);
      d == c.(attempt := d.attempt, reason := d.reason, stops := d.stops, blind := d.blind, launch := d.launch)
      && !d.launch.LaunchReady?
  {
  }

  /** A row left NOT_SENT: its last call was proved unsent, and so were the ones before it. */
  lemma RecoverRowKeeps(s: System, k: nat)
    requires Safe(s)
    ensures Safe(OnRecoverRow(s, k))
  {
    hide Ledger.Inv;
    if MayRecover(s) && k in s.j.models && s.j.models[k].permit.Some? && s.j.models[k].response.None? {
      var p := s.j.models[k].permit.value;
      assert RowOk(s.spec, s.j, s.c.grants, k);
      if s.j.models[k].state.CallNotSent? {
        forall i | 0 <= i < |s.calls| && s.calls[i].permit == p ensures s.calls[i].verdict.ProvedUnsent? {
          assert CallOk(s.j, s.c.grants, s.c.ledger.permits, s.calls[i]);
        }
        ReportedUnsentMayFail(s, p, k);
      }
      FailKeepsSafe(s, p, s.j.models[k].state.CallNotSent?);
    }
  }

  /** An operation that was never marked SENT has made no call under any grant. */
  lemma RecoverUnsentKeeps(s: System, k: nat, p: nat)
    requires Safe(s)
    ensures Safe(OnRecoverUnsent(s, k, p))
  {
    hide Ledger.Inv;
    if MayRecover(s) && k in s.j.models && s.j.models[k].state.Prepared? && s.j.models[k].permit.None?
        && p in s.c.grants && s.c.grants[p].step == k {
      assert RowOk(s.spec, s.j, s.c.grants, k);
      forall i | 0 <= i < |s.calls| ensures s.calls[i].permit != p {
        assert CallOk(s.j, s.c.grants, s.c.ledger.permits, s.calls[i]);
      }
      ReportedUnsentMayFail(s, p, k);
      FailKeepsSafe(s, p, true);
    }
  }

  lemma RecoverFirstKeeps(s: System)
    requires Safe(s)
    ensures Safe(OnRecoverFirst(s))
  {
    hide Ledger.Inv;
    if MayRecover(s) && s.c.firstPermit !in s.c.grants {
      UngrantedMayFail(s, s.c.firstPermit);
      FailKeepsSafe(s, s.c.firstPermit, true);
    }
  }

  lemma ElsewhereFlips(s: System, op: Ledger.Op, q: nat)
    requires Foreign(s, op) && q < |s.c.ledger.permits| && q < |Ledger.Step(s.c.ledger, op).permits|
    requires Ledger.Step(s.c.ledger, op).permits[q].state.NotSent? && !s.c.ledger.permits[q].state.NotSent?
    ensures !BelongsTo(s.spec, s.c.ledger.permits[q])
  {
    match op
    case PrepareOp(call) =>
    case RespondOp(id, response) =>
      if Ledger.Respond(s.c.ledger, id, response).Ok? {
        RespondFlips(s.c.ledger, id, response);
      }
    case FailOp(id, notSent) => FailFlips(s.c.ledger, id, notSent);
    case _ =>
  }

  lemma ElsewhereKeeps(s: System, op: Ledger.Op)
    requires Safe(s)
    ensures Safe(OnElsewhere(s, op))
  {
    hide Ledger.Inv, MoneyInv;
    if Foreign(s, op) {
      Ledger.StepKeepsInv(s.c.ledger, op);
      var t := OnElsewhere(s, op);
      forall q | 0 <= q < |s.c.ledger.permits| && t.c.ledger.permits[q].state.NotSent?
          && !s.c.ledger.permits[q].state.NotSent? ensures MayFail(s, q) {
        ElsewhereFlips(s, op, q);
        ForeignPermitMayFail(s, q);
      }
      LedgerFrame(s, t);
    }
  }
}
