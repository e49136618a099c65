/** What a whole recovery does with the calls it finds open: which permits it proves unsent, which it leaves to the
    owner. */
module WorkerRecovery {
  import opened Wrappers
  import opened AttemptStates
  import opened Journal
  import opened WorkerProtocol
  import opened WorkerRuns
  import opened WorkerSafety
  import opened WorkerController
  import opened WorkerTools
  import opened WorkerTheorems
  import opened WorkerResults
  import opened WorkerReports
  import Ledger

  // ---- Recoveries ----

  predicate Recovers(m: Move) {
    RecoveryMove(m) || m.Deliver?
  }

  /** A recovery, broken off anywhere. */
  ghost predicate Recovery(moves: seq<Move>) {
    forall i :: 0 <= i < |moves| ==> Recovers(moves[i])
  }

  /** A recovery that has gone through every row, every grant of every row, and the first permit. */
  ghost predicate Whole(s: System, moves: seq<Move>) {
    && Recovery(moves)
    && (forall k :: k in s.j.models ==> RecoverRow(k) in moves)
    && (forall k, p :: k in s.j.models && p in s.c.grants ==> RecoverUnsent(k, p) in moves)
    && RecoverFirst in moves
  }

  predicate Concluded(moves: seq<Move>) {
    exists i :: 0 <= i < |moves| && moves[i].Conclude?
  }

  /** What is known of every state of every run. */
  ghost predicate Known(s: System) {
    Inv(s) && Reported(s) && AppliedTook(s)
  }

  lemma NextKeepsKnown(s: System, m: Move)
    requires Known(s)
    ensures Known(Next(s, m))
  {
    hide Inv, Reported, AppliedTook, Next;
    PartsOfInv(s);
    NextKeepsInv(s, m);
    NextKeepsReported(s, m);
    NextKeepsTook(s, m);
  }

  /** What a recovery does not touch. */
  ghost predicate SameGround(s: System, t: System) {
    && t.spec == s.spec && t.j == s.j && t.w == s.w && t.rpc == s.rpc
    && t.c.grants == s.c.grants && t.c.firstPermit == s.c.firstPermit && t.c.epoch == s.c.epoch
    && |t.c.ledger.permits| == |s.c.ledger.permits|
    && (!s.c.launch.LaunchReady? ==> !t.c.launch.LaunchReady?)
  }

  lemma DeliverKeepsGround(s: System, n: nat)
    requires Safe(s) && DeliveryInv(s)
    ensures SameGround(s, OnDeliver(s, n))
    ensures OnDeliver(s, n).c.stops == s.c.stops && OnDeliver(s, n).c.launch == s.c.launch
  {
    hide Ledger.Inv, MoneyInv, Ledger.Evolves;
    if OnDeliver(s, n) != s {
      InboxFrame(s, Posted(s, n));
      DrainEvolves(Posted(s, n));
    }
  }

  lemma RecoverKeepsGround(s: System, k: nat, p: nat, reading: Reading)
    ensures SameGround(s, OnRecoverRow(s, k)) && SameGround(s, OnRecoverUnsent(s, k, p))
        && SameGround(s, OnRecoverFirst(s))
    ensures SameGround(s, OnConclude(s, reading))
  {
    hide Decide;
    DecideShape(s.spec, s.j, s.c, reading);
  }

  lemma RecoveryIsNext(s: System, m: Move)
    requires Recovers(m)
    ensures Next(s, m) == RecoveryNext(s, m)
  {
    hide RecoveryNext;
  }

  lemma NextKeepsGround(s: System, m: Move)
    requires Known(s) && Recovers(m)
    ensures SameGround(s, Next(s, m))
  {
    hide Inv, Safe, DeliveryInv, Reported, AppliedTook, SameGround, Next, OnDeliver, OnRecoverRow, OnRecoverUnsent,
      OnRecoverFirst, OnConclude;
    PartsOfInv(s);
    RecoveryIsNext(s, m);
    if m.Deliver? {
      DeliverKeepsGround(s, m.sequence);
    } else {
      var k := if m.RecoverRow? || m.RecoverUnsent? then m.step else 0;
      var p := if m.RecoverUnsent? then m.permit else 0;
      RecoverKeepsGround(s, k, p, if m.Conclude? then m.reading else Readable);
    }
  }

  // ---- What closes a call ----

  /** The evidence that no call under the permit was delivered: its row was never marked sent, or the journal says
      so. */
  ghost predicate Released(s: System, k: nat, p: nat) {
    && k in s.j.models
    && var r := s.j.models[k];
       r.permit.None? || (r.permit == Some(p) && r.state.CallNotSent?) || Says(s.c.applied, FailureEvent(k, p, true))
  }

  /** A granted permit is open, or it was closed on evidence. */
  ghost predicate Accounted(s: System, p: nat) {
    && p in s.c.grants && p < |s.c.ledger.permits|
    && var k, q := s.c.grants[p].step, s.c.ledger.permits[p];
       || OpenCall(s.spec, q)
       || (q.state.NotSent? && Released(s, k, p))
       || (q.response.Some? && Says(s.c.applied, AnswerEvent(k, p, q.response.value)))
  }

  lemma SaysMore(events: seq<Event>, e: Event, e': Event)
    ensures Says(events + [e], e) && (Says(events, e') ==> Says(events + [e], e'))
  {
    assert (events + [e])[|events|] == e;
    if Says(events, e') {
      var i :| 0 <= i < |events| && events[i] == e';
      assert (events + [e])[i] == e';
    }
  }

  /** The state after the next event has been applied. */
  function Applied(s: System, e: Event): System
    requires ApplyEvent(s.spec, s.c, e).Ok?
  {
    var a := ApplyEvent(s.spec, s.c, e).value;
    s.(c := a.(lastSequence := s.c.lastSequence + 1, applied := s.c.applied + [e]))
  }

  lemma FailOpens(spec: Spec, l: Ledger.State, p: nat, notSent: bool)
    requires p < |l.permits|
    ensures |Ledger.Fail(l, p, notSent).permits| == |l.permits|
    ensures
      var q := Ledger.Fail(l, p, notSent).permits[p];
      if !OpenCall(spec, l.permits[p]) && BelongsTo(spec, l.permits[p]) then q == l.permits[p]
      else if notSent && OpenCall(spec, l.permits[p]) then q.state.NotSent?
      else OpenCall(spec, l.permits[p]) ==> OpenCall(spec, q)
  {
  }

  /** An event about the permit itself. */
  lemma ReportAccounts(s: System, e: Event, p: nat)
    requires Safe(s) && e in s.j.events && ApplyEvent(s.spec, s.c, e).Ok? && Accounted(s, p) && Subject(e) == Some(p)
    ensures Accounted(Applied(s, e), p)
  {
    hide Ledger.Inv, Ledger.Fail, Ledger.Respond, Says, JournalInv, CallInv, PhaseInv, AnswerInv;
    var k := s.c.grants[p].step;
    var i :| 0 <= i < |s.j.events| && s.j.events[i] == e;
    assert EventOk(s, e) && GrantOk(s.spec, s.j, s.c.grants, s.c.ledger.permits, p);
    SaysMore(s.c.applied, e, FailureEvent(k, p, true));
    if e.AnswerEvent? {
      RespondTakes(s.c.ledger, p, e.response);
    } else {
      FailOpens(s.spec, s.c.ledger, p, e.notSent);
      if s.c.ledger.permits[p].response.Some? {
        SaysMore(s.c.applied, e, AnswerEvent(k, p, s.c.ledger.permits[p].response.value));
      }
    }
  }

  lemma OtherAccounts(s: System, e: Event, p: nat)
    requires Safe(s) && e in s.j.events && ApplyEvent(s.spec, s.c, e).Ok? && Accounted(s, p) && Subject(e) != Some(p)
    ensures Accounted(Applied(s, e), p)
  {
    hide Safe, Says, ApplyEvent, OpenCall;
    ApplyEvolves(s, e);
    ApplyChangesOneRow(s.spec, s.c, e);
    SaysMore(s.c.applied, e, FailureEvent(s.c.grants[p].step, p, true));
    if s.c.ledger.permits[p].response.Some? {
      SaysMore(s.c.applied, e, AnswerEvent(s.c.grants[p].step, p, s.c.ledger.permits[p].response.value));
    }
  }

  lemma ApplyAccounts(s: System, e: Event, p: nat)
    requires Safe(s) && e in s.j.events && ApplyEvent(s.spec, s.c, e).Ok? && Accounted(s, p)
    ensures Accounted(Applied(s, e), p)
  {
    hide Safe, Accounted, ApplyEvent;
    if Subject(e) == Some(p) {
      ReportAccounts(s, e, p);
    } else {
      OtherAccounts(s, e, p);
    }
  }

  lemma {:induction false} DrainAccounts(s: System, p: nat)
    requires Safe(s) && FromJournal(s.c.inbox, s.j.events) && Drain(s.spec, s.c).Ok? && Accounted(s, p)
    ensures Accounted(s.(c := Drain(s.spec, s.c).value), p)
    decreases Buffered(s.c)
  {
    hide Ledger.Inv, MoneyInv, Accounted, ApplyEvent;
    var n := s.c.lastSequence + 1;
    if n in s.c.inbox {
      var e := s.c.inbox[n];
      assert e in s.j.events;
      ApplyKeepsSafe(s, e);
      ApplyAccounts(s, e, p);
      var d := Applied(s, e);
      InboxFrame(s.(c := ApplyEvent(s.spec, s.c, e).value), d);
      assert n in Buffered(s.c) && n !in Buffered(d.c) && Buffered(d.c) <= Buffered(s.c);
      ApplyEvolves(s, e);
      DrainAccounts(d, p);
    }
  }

  lemma DeliverAccounts(s: System, n: nat, p: nat)
    requires Safe(s) && DeliveryInv(s) && Accounted(s, p)
    ensures Accounted(OnDeliver(s, n), p)
  {
    hide Ledger.Inv, MoneyInv;
    if OnDeliver(s, n) != s {
      var u := Posted(s, n);
      InboxFrame(s, u);
      assert Accounted(u, p);
      hide Accounted;
      DrainAccounts(u, p);
    }
  }

  lemma FailLeavesOthers(l: Ledger.State, q: nat, notSent: bool, p: nat)
    requires p < |l.permits| && p != q
    ensures p < |Ledger.Fail(l, q, notSent).permits| && Ledger.Fail(l, q, notSent).permits[p] == l.permits[p]
  {
  }

  lemma RecoverRowAccounts(s: System, i: nat, p: nat)
    requires MoneyInv(s) && Accounted(s, p)
    ensures Accounted(OnRecoverRow(s, i), p)
  {
    hide Says, CallInv, PhaseInv, AnswerInv, EventInv;
    if i in s.j.models && s.j.models[i].permit.Some? {
      assert RowOk(s.spec, s.j, s.c.grants, i);
      var q := s.j.models[i].permit.value;
      if q != p && q < |s.c.ledger.permits| { FailLeavesOthers(s.c.ledger, q, s.j.models[i].state.CallNotSent?, p); }
    }
  }

  lemma RecoverUnsentAccounts(s: System, i: nat, q: nat, p: nat)
    requires MoneyInv(s) && Accounted(s, p)
    ensures Accounted(OnRecoverUnsent(s, i, q), p)
  {
    hide Says, JournalInv, CallInv, PhaseInv, AnswerInv, EventInv;
    if q != p { FailLeavesOthers(s.c.ledger, q, true, p); }
  }

  lemma RecoverFirstAccounts(s: System, p: nat)
    requires Accounted(s, p)
    ensures Accounted(OnRecoverFirst(s), p)
  {
    hide Says;
    if s.c.firstPermit != p { FailLeavesOthers(s.c.ledger, s.c.firstPermit, true, p); }
  }

  lemma ConcludeAccounts(s: System, reading: Reading, p: nat)
    requires Accounted(s, p)
    ensures Accounted(OnConclude(s, reading), p)
  {
    hide Says, Decide;
    DecideShape(s.spec, s.j, s.c, reading);
  }

  lemma NextAccounts(s: System, m: Move, p: nat)
    requires Known(s) && Recovers(m) && Accounted(s, p)
    ensures Accounted(Next(s, m), p)
  {
    hide Ledger.Inv, MoneyInv, Reported, AppliedTook, Accounted, Next, OnDeliver, OnRecoverRow, OnRecoverUnsent,
      OnRecoverFirst, OnConclude;
    RecoveryIsNext(s, m);
    if m.Deliver? {
      DeliverAccounts(s, m.sequence, p);
    } else if m.RecoverRow? {
      RecoverRowAccounts(s, m.step, p);
    } else if m.Conclude? {
      ConcludeAccounts(s, m.reading, p);
    } else if m.RecoverUnsent? {
      RecoverUnsentAccounts(s, m.step, m.permit, p);
    } else {
      RecoverFirstAccounts(s, p);
    }
  }

  /** Every state of a recovery. */
  lemma {:induction false} RecoveryAccounts(s: System, moves: seq<Move>, p: nat)
    requires Known(s) && Recovery(moves) && Accounted(s, p)
    ensures Known(Run(s, moves)) && SameGround(s, Run(s, moves)) && Accounted(Run(s, moves), p)
  {
    hide Known, Accounted, Next;
    if moves != [] {
      var t, m := Run(s, moves[..|moves| - 1]), moves[|moves| - 1];
      RecoveryAccounts(s, moves[..|moves| - 1], p);
      NextKeepsKnown(t, m);
      NextKeepsGround(t, m);
      NextAccounts(t, m, p);
    }
  }

  // ---- What a whole recovery settles ----

  ghost predicate Closed(s: System, p: nat) {
    p < |s.c.ledger.permits| && !OpenCall(s.spec, s.c.ledger.permits[p])
  }

  lemma ClosedStays(spec: Spec, l: Ledger.State, t: Ledger.State, p: nat)
    requires Ledger.Evolves(l, t) && p < |l.permits| && !OpenCall(spec, l.permits[p])
    ensures p < |t.permits| && !OpenCall(spec, t.permits[p])
  {
    assert Ledger.RowEvolves(l.permits[p], t.permits[p]);
  }

  /** The move that closes a call on the evidence of its row. */
  predicate Releases(s: System, m: Move, p: nat) {
    && p in s.c.grants
    && var k := s.c.grants[p].step;
       && k in s.j.models
       && (|| (m == RecoverUnsent(k, p) && s.j.models[k].permit.None?)
           || (m == RecoverRow(k) && s.j.models[k].permit == Some(p) && s.j.models[k].state.CallNotSent?))
  }

  lemma RowsKnown(s: System, p: nat)
    requires Known(s) && p in s.c.grants
    ensures s.c.grants[p].step in s.j.models && RowOk(s.spec, s.j, s.c.grants, s.c.grants[p].step)
    ensures GrantOk(s.spec, s.j, s.c.grants, s.c.ledger.permits, p)
  {
    hide Ledger.Inv, CallInv, EventInv, PhaseInv, AnswerInv, DeliveryInv, ToolInv, StopInv, Reported, AppliedTook;
  }

  lemma ReleaseCloses(s: System, m: Move, p: nat)
    requires Known(s) && MayRecover(s) && Releases(s, m, p)
    ensures Closed(Next(s, m), p)
  {
    hide Known, Next, Ledger.Fail, Ledger.Pending, BelongsTo, SourceOf, OnDeliver, OnRecoverFirst, OnConclude;
    RowsKnown(s, p);
    FailTakes(s.c.ledger, p);
    RecoveryIsNext(s, m);
  }

  lemma {:induction false} Closes(s: System, moves: seq<Move>, m: Move, p: nat)
    requires Known(s) && MayRecover(s) && Recovery(moves) && Accounted(s, p) && m in moves && Releases(s, m, p)
    ensures Closed(Run(s, moves), p)
  {
    hide Known, Inv, Accounted, Next, OpenCall, Ledger.Evolves;
    var before, last := moves[..|moves| - 1], moves[|moves| - 1];
    var t := Run(s, before);
    RecoveryAccounts(s, before, p);
    if last == m {
      ReleaseCloses(t, m, p);
    } else {
      assert m in before;
      Closes(s, before, m, p);
      NextKeepsGround(t, last);
      KnownEvolves(t, last);
      ClosedStays(s.spec, t.c.ledger, Next(t, last).c.ledger, p);
    }
  }

  lemma KnownEvolves(s: System, m: Move)
    requires Known(s)
    ensures Ledger.Evolves(s.c.ledger, Next(s, m).c.ledger)
  {
    hide Inv, Safe, DeliveryInv, Reported, AppliedTook, Next, Ledger.Evolves;
    PartsOfInv(s);
    NextEvolves(s, m);
  }

  /** An answered call is not one of which anything proves that it was not sent. */
  lemma AnswersAreDelivered(s: System, k: nat, p: nat, response: Ledger.Response)
    requires Known(s) && Says(s.c.applied, AnswerEvent(k, p, response))
    ensures p < |s.c.ledger.permits| && !s.c.ledger.permits[p].state.NotSent?
        && s.c.ledger.permits[p].response == Some(response)
    ensures !Released(s, k, p)
  {
    hide Ledger.Inv, Reported, JournalInv, CallInv, PhaseInv, ToolInv, StopInv;
    var i :| 0 <= i < |s.c.applied| && s.c.applied[i] == AnswerEvent(k, p, response);
    assert s.j.events[i] == s.c.applied[i] && EventOk(s, s.j.events[i])
        && Took(s.spec, s.c.ledger.permits, s.j.events[i]);
    forall n | 0 <= n < |s.c.applied| ensures s.c.applied[n] != FailureEvent(k, p, true) {
      assert s.j.events[n] == s.c.applied[n] && EventOk(s, s.j.events[n]);
    }
  }

  lemma FailuresClose(s: System, k: nat, p: nat)
    requires Known(s) && Says(s.c.applied, FailureEvent(k, p, true))
    ensures Closed(s, p)
  {
    hide Safe, Reported, ToolInv, StopInv;
    var i :| 0 <= i < |s.c.applied| && s.c.applied[i] == FailureEvent(k, p, true);
    assert s.j.events[i] == s.c.applied[i] && Took(s.spec, s.c.ledger.permits, s.j.events[i]);
  }

  /** A whole recovery closes the call when something proves it unsent. */
  lemma EvidenceCloses(s: System, moves: seq<Move>, p: nat)
    requires Known(s) && MayRecover(s) && Whole(s, moves) && Accounted(s, p)
    requires p in s.c.grants && s.c.grants[p].step in s.j.models && Released(Run(s, moves), s.c.grants[p].step, p)
    ensures Closed(Run(s, moves), p)
  {
    hide Known, Accounted, Run, OpenCall, Says;
    var k := s.c.grants[p].step;
    RecoveryAccounts(s, moves, p);
    if s.j.models[k].permit.None? {
      Closes(s, moves, RecoverUnsent(k, p), p);
    } else if s.j.models[k].permit == Some(p) && s.j.models[k].state.CallNotSent? {
      Closes(s, moves, RecoverRow(k), p);
    } else {
      FailuresClose(Run(s, moves), k, p);
    }
  }

  lemma UnsentHasNoResponse(s: System, p: nat)
    requires Known(s) && p in s.c.grants && p < |s.c.ledger.permits| && s.c.ledger.permits[p].state.NotSent?
    ensures s.c.ledger.permits[p].response.None?
  {
    hide JournalInv, CallInv, EventInv, PhaseInv, AnswerInv, DeliveryInv, ToolInv, StopInv, Reported, AppliedTook;
    assert GrantOk(s.spec, s.j, s.c.grants, s.c.ledger.permits, p);
    assert Ledger.PermitOk(s.c.ledger.permits[p]);
  }
  lemma OpenCallSettles(s: System, moves: seq<Move>, p: nat)
    requires Known(s) && MayRecover(s) && Whole(s, moves)
    requires p in s.c.grants && p < |s.c.ledger.permits| && OpenCall(s.spec, s.c.ledger.permits[p])
    ensures
      var t, k := Run(s, moves), s.c.grants[p].step;
      && p < |t.c.ledger.permits| && var q := t.c.ledger.permits[p];
      && (q.state.NotSent? <==> Released(t, k, p))
      && (forall r :: q.response == Some(r) <==> Says(t.c.applied, AnswerEvent(k, p, r)))
      && (q.state.NotSent? || q.response.Some? || OpenCall(s.spec, q))
  {
    hide Known, Released, Run, Says;
    var t, k := Run(s, moves), s.c.grants[p].step;
    RecoveryAccounts(s, moves, p);
    RowsKnown(s, p);
    var q := t.c.ledger.permits[p];
    if Released(t, k, p) { EvidenceCloses(s, moves, p); }
    forall r | Says(t.c.applied, AnswerEvent(k, p, r)) ensures q.response == Some(r) && !q.state.NotSent?
        && !Released(t, k, p) {
      AnswersAreDelivered(t, k, p, r);
    }
    if q.state.NotSent? { UnsentHasNoResponse(t, p); }
  }

  // ---- Calls that stay open ----

  ghost predicate NoEnd(events: seq<Event>) {
    forall i :: 0 <= i < |events| ==> !events[i].FinishEvent?
  }

  lemma {:induction false} DrainEnds(spec: Spec, c: Controller, events: seq<Event>)
    requires FromJournal(c.inbox, events) && Drain(spec, c).Ok?
    ensures NoEnd(events) || !Active(c.attempt) ==>
      Drain(spec, c).value.attempt == c.attempt && Drain(spec, c).value.reason == c.reason
    ensures Active(Drain(spec, c).value.attempt) ==> Active(c.attempt)
    decreases Buffered(c)
  {
    hide Ledger.Respond, Ledger.Fail;
    var n := c.lastSequence + 1;
    if n in c.inbox {
      var a := ApplyEvent(spec, c, c.inbox[n]).value;
      var d := a.(lastSequence := n, applied := a.applied + [c.inbox[n]]);
      assert n in Buffered(c) && n !in Buffered(d) && Buffered(d) <= Buffered(c);
      DrainEnds(spec, d, events);
    }
  }

  /** Until the conclusion the attempt is undecided; afterwards it waits for the owner, unless it had ended or the
      journal ends it. */
  ghost predicate Awaiting(s: System, ended: bool, concluded: bool) {
    if Active(s.c.attempt) then !concluded && s.c.epoch !in s.c.stops
    else
      && (concluded ==> s.c.launch.Exited?)
      && (!ended && NoEnd(s.j.events) ==> s.c.attempt.Blocked? && s.c.reason == "CALL_OUTCOME_UNKNOWN")
  }

  lemma OpenMeansUndecided(s: System, p: nat)
    requires Known(s) && MayRecover(s) && p < |s.c.ledger.permits| && OpenCall(s.spec, s.c.ledger.permits[p])
    ensures Awaiting(s, !Active(s.c.attempt), false)
  {
    hide Safe, DeliveryInv, ToolInv, Reported, AppliedTook, UnknownTool;
  }

  lemma DeliverAwaits(s: System, n: nat, ended: bool, concluded: bool)
    requires Safe(s) && DeliveryInv(s) && Awaiting(s, ended, concluded)
    ensures Awaiting(OnDeliver(s, n), ended, concluded)
  {
    hide Ledger.Inv, MoneyInv;
    DeliverKeepsGround(s, n);
    if OnDeliver(s, n) != s { DrainEnds(s.spec, Posted(s, n).c, s.j.events); }
  }

  lemma ConcludeAwaits(s: System, reading: Reading, p: nat, ended: bool, concluded: bool)
    requires MayRecover(s) && Awaiting(s, ended, concluded) && p < |s.c.ledger.permits|
        && OpenCall(s.spec, s.c.ledger.permits[p])
    ensures Awaiting(OnConclude(s, reading), ended, true)
  {
    if Active(s.c.attempt) { OpenCallBlocksForReview(s, p, reading); }
  }

  lemma NextAwaits(s: System, m: Move, p: nat, ended: bool, concluded: bool)
    requires Known(s) && MayRecover(s) && Recovers(m) && Awaiting(s, ended, concluded)
    requires p < |s.c.ledger.permits| && OpenCall(s.spec, s.c.ledger.permits[p])
    ensures Awaiting(Next(s, m), ended, concluded || m.Conclude?)
  {
    hide Inv, Safe, DeliveryInv, Reported, AppliedTook, Next, OnDeliver, OnConclude, Ledger.Fail, OpenCall;
    PartsOfInv(s);
    RecoveryIsNext(s, m);
    if m.Deliver? {
      DeliverAwaits(s, m.sequence, ended, concluded);
    } else if m.Conclude? {
      ConcludeAwaits(s, m.reading, p, ended, concluded);
    }
  }

  lemma {:induction false} RecoveryAwaits(s: System, moves: seq<Move>, p: nat)
    requires Known(s) && MayRecover(s) && Recovery(moves) && p < |s.c.ledger.permits|
    requires p < |Run(s, moves).c.ledger.permits| && OpenCall(s.spec, Run(s, moves).c.ledger.permits[p])
    ensures Known(Run(s, moves)) && SameGround(s, Run(s, moves)) && OpenCall(s.spec, s.c.ledger.permits[p])
    ensures Awaiting(Run(s, moves), !Active(s.c.attempt), Concluded(moves))
  {
    hide Known, OpenCall, Awaiting, Next, Ledger.Evolves;
    if moves == [] {
      OpenMeansUndecided(s, p);
    } else {
      var before, m := moves[..|moves| - 1], moves[|moves| - 1];
      var t := Run(s, before);
      RecoveryGround(s, before);
      KnownEvolves(t, m);
      if !OpenCall(s.spec, t.c.ledger.permits[p]) {
        ClosedStays(s.spec, t.c.ledger, Next(t, m).c.ledger, p);
      }
      RecoveryAwaits(s, before, p);
      NextKeepsKnown(t, m);
      NextKeepsGround(t, m);
      NextAwaits(t, m, p, !Active(s.c.attempt), Concluded(before));
      assert Concluded(moves) <==> Concluded(before) || m.Conclude?;
    }
  }

  lemma {:induction false} RecoveryGround(s: System, moves: seq<Move>)
    requires Known(s) && Recovery(moves)
    ensures Known(Run(s, moves)) && SameGround(s, Run(s, moves))
  {
    hide Known, Next;
    if moves != [] {
      var t, m := Run(s, moves[..|moves| - 1]), moves[|moves| - 1];
      RecoveryGround(s, moves[..|moves| - 1]);
      NextKeepsKnown(t, m);
      NextKeepsGround(t, m);
    }
  }

  lemma {:induction false} OneIsHeld(ps: seq<Ledger.Permit>, p: nat)
    requires p < |ps|
    ensures Ledger.HeldOf(ps[p]) <= Ledger.Sum(Ledger.HeldOf, ps)
  {
    if p < |ps| - 1 { OneIsHeld(ps[..|ps| - 1], p); }
  }

  /** The money of an open call is held, and a recovery that has concluded leaves the attempt to the owner. */
  ghost predicate LeftToTheOwner(s: System, t: System, p: nat, concluded: bool) {
    && p < |t.c.ledger.permits| && OpenCall(t.spec, t.c.ledger.permits[p])
    && t.c.ledger.permits[p].reservedMicros <= Ledger.Held(t.c.ledger)
    && (concluded ==> t.c.launch.Exited? && !Active(t.c.attempt))
    && (concluded && Active(s.c.attempt) && NoEnd(s.j.events) ==>
          t.c.attempt.Blocked? && t.c.reason == "CALL_OUTCOME_UNKNOWN")
  }

  lemma OpenCallIsLeft(s: System, moves: seq<Move>, p: nat)
    requires Known(s) && MayRecover(s) && Recovery(moves) && p < |s.c.ledger.permits|
    requires p < |Run(s, moves).c.ledger.permits| && OpenCall(s.spec, Run(s, moves).c.ledger.permits[p])
    ensures LeftToTheOwner(s, Run(s, moves), p, Concluded(moves))
  {
    hide Known, Run, NoEnd;
    RecoveryAwaits(s, moves, p);
    OneIsHeld(Run(s, moves).c.ledger.permits, p);
  }

  // ---- Permits of which nothing is said ----

  /** No row keeps the permit and no event speaks of it. */
  ghost predicate Unheard(s: System, p: nat) {
    p < |s.c.ledger.permits| && (forall k :: k in s.j.models ==> s.j.models[k].permit != Some(p))
        && Unmentioned(s.j.events, p)
  }

  lemma {:induction false} DrainLeaves(spec: Spec, c: Controller, events: seq<Event>, p: nat)
    requires FromJournal(c.inbox, events) && Unmentioned(events, p) && p < |c.ledger.permits| && Drain(spec, c).Ok?
    ensures p < |Drain(spec, c).value.ledger.permits| && Drain(spec, c).value.ledger.permits[p] == c.ledger.permits[p]
    decreases Buffered(c)
  {
    hide ApplyEvent;
    var n := c.lastSequence + 1;
    if n in c.inbox {
      var a := ApplyEvent(spec, c, c.inbox[n]).value;
      ApplyChangesOneRow(spec, c, c.inbox[n]);
      var d := a.(lastSequence := n, applied := a.applied + [c.inbox[n]]);
      assert n in Buffered(c) && n !in Buffered(d) && Buffered(d) <= Buffered(c);
      DrainLeaves(spec, d, events, p);
    }
  }

  ghost predicate SameRow(s: System, t: System, p: nat) {
    p < |s.c.ledger.permits| && p < |t.c.ledger.permits| && t.c.ledger.permits[p] == s.c.ledger.permits[p]
  }

  lemma DeliverLeaves(s: System, n: nat, p: nat)
    requires DeliveryInv(s) && Unheard(s, p)
    ensures SameRow(s, OnDeliver(s, n), p)
  {
    hide Drain;
    if OnDeliver(s, n) != s { DrainLeaves(s.spec, Posted(s, n).c, s.j.events, p); }
  }

  /** The two moves of a recovery that can close such a call. */
  predicate Finds(s: System, m: Move, p: nat) {
    || Releases(s, m, p)
    || (m.RecoverFirst? && p == s.c.firstPermit && p !in s.c.grants)
  }

  lemma ConcludeKeepsLedger(s: System, reading: Reading)
    ensures OnConclude(s, reading).c.ledger == s.c.ledger
  {
    hide Decide;
    DecideShape(s.spec, s.j, s.c, reading);
  }

  lemma NextLeavesUnheard(s: System, m: Move, p: nat)
    requires Known(s) && Recovers(m) && Unheard(s, p) && !Finds(s, m, p)
    ensures SameRow(s, Next(s, m), p)
  {
    hide Inv, Safe, DeliveryInv, Reported, AppliedTook, Next, OnDeliver, OnConclude, Unmentioned;
    PartsOfInv(s);
    RecoveryIsNext(s, m);
    if m.Deliver? {
      DeliverLeaves(s, m.sequence, p);
    } else if m.Conclude? {
      ConcludeKeepsLedger(s, m.reading);
    }
  }

  lemma {:induction false} UnheardStays(s: System, moves: seq<Move>, p: nat)
    requires Known(s) && Recovery(moves) && Unheard(s, p)
    requires forall i :: 0 <= i < |moves| ==> !Finds(s, moves[i], p)
    ensures SameRow(s, Run(s, moves), p)
  {
    hide Known, Next;
    if moves != [] {
      var t, m := Run(s, moves[..|moves| - 1]), moves[|moves| - 1];
      RecoveryGround(s, moves[..|moves| - 1]);
      UnheardStays(s, moves[..|moves| - 1], p);
      NextLeavesUnheard(t, m, p);
    }
  }

  /** A granted permit that is not the one its row keeps. */
  ghost predicate SecondGrant(s: System, k: nat, p: nat) {
    && k in s.j.models && s.j.models[k].permit.Some? && s.j.models[k].permit.value != p
    && p in s.c.grants && s.c.grants[p].step == k && p < |s.c.ledger.permits|
  }

  lemma SecondGrantIsUnheard(s: System, k: nat, p: nat)
    requires Known(s) && SecondGrant(s, k, p) && Unmentioned(s.j.events, p)
    ensures Unheard(s, p) && forall m :: !Finds(s, m, p)
  {
    forall i | i in s.j.models ensures s.j.models[i].permit != Some(p) {
      assert RowOk(s.spec, s.j, s.c.grants, i);
    }
  }

  lemma UnsentStays(l: Ledger.State, t: Ledger.State, p: nat)
    requires Ledger.Evolves(l, t) && p < |l.permits| && l.permits[p].state.NotSent?
    ensures p < |t.permits| && t.permits[p].state.NotSent?
  {
    assert Ledger.RowEvolves(l.permits[p], t.permits[p]);
  }

  lemma FailsOpenOnly(spec: Spec, l: Ledger.State, p: nat)
    requires p < |l.permits|
    ensures |Ledger.Fail(l, p, true).permits| == |l.permits|
    ensures
      var q := Ledger.Fail(l, p, true).permits[p];
      (q == l.permits[p] || q.state.NotSent?) && (OpenCall(spec, l.permits[p]) ==> q.state.NotSent?)
  {
  }

  /** What a recovery does to a first permit that was never granted: nothing, or it proves it unsent. */
  ghost predicate FirstKept(s: System, t: System, reached: bool) {
    var p := s.c.firstPermit;
    && p < |s.c.ledger.permits| && p < |t.c.ledger.permits|
    && (t.c.ledger.permits[p] == s.c.ledger.permits[p] || t.c.ledger.permits[p].state.NotSent?)
    && (s.c.ledger.permits[p].state.NotSent? ==> t.c.ledger.permits[p].state.NotSent?)
    && (reached && OpenCall(s.spec, s.c.ledger.permits[p]) ==> t.c.ledger.permits[p].state.NotSent?)
  }

  lemma FirstStep(s: System, m: Move)
    requires Known(s) && MayRecover(s) && Recovers(m) && s.c.firstPermit !in s.c.grants && Unheard(s, s.c.firstPermit)
    ensures FirstKept(s, Next(s, m), m == RecoverFirst)
  {
    hide Known, Next, Ledger.Fail, Ledger.Evolves, OpenCall;
    var p := s.c.firstPermit;
    if m == RecoverFirst {
      RecoveryIsNext(s, m);
      FailsOpenOnly(s.spec, s.c.ledger, p);
    } else {
      NextLeavesUnheard(s, m, p);
    }
    if s.c.ledger.permits[p].state.NotSent? {
      KnownEvolves(s, m);
      UnsentStays(s.c.ledger, Next(s, m).c.ledger, p);
    }
  }

  lemma {:induction false} FirstIsClosed(s: System, moves: seq<Move>)
    requires Known(s) && MayRecover(s) && Recovery(moves) && s.c.firstPermit !in s.c.grants
        && Unheard(s, s.c.firstPermit)
    ensures FirstKept(s, Run(s, moves), RecoverFirst in moves)
  {
    hide Known, Next, OpenCall, Unmentioned;
    if moves != [] {
      var before, m := moves[..|moves| - 1], moves[|moves| - 1];
      FirstIsClosed(s, before);
      RecoveryGround(s, before);
      assert RecoverFirst in moves ==> RecoverFirst in before || m == RecoverFirst;
      FirstStep(Run(s, before), m);
    }
  }

  // ---- The recoveries of every run ----

  lemma RunIsKnown(s0: System, before: seq<Move>)
    requires Created(s0)
    ensures Known(Run(s0, before))
  {
    RunKeepsReports(s0, before);
  }

  /** Of a call that a whole recovery finds open, at any point of any run: it is proved unsent exactly on the evidence
      of its row or of the journal, it gets a response exactly when one was journaled, and otherwise it stays open, its
      money held, for the owner to settle. */
  lemma RecoverySettlesExactly(s0: System, before: seq<Move>, moves: seq<Move>, p: nat)
    requires Created(s0) && MayRecover(Run(s0, before)) && Whole(Run(s0, before), moves)
    requires p in Run(s0, before).c.grants && p < |Run(s0, before).c.ledger.permits|
    requires OpenCall(s0.spec, Run(s0, before).c.ledger.permits[p])
    ensures
      var s, t := Run(s0, before), Run(Run(s0, before), moves);
      var k := s.c.grants[p].step;
      && p < |t.c.ledger.permits| && var q := t.c.ledger.permits[p];
      && (q.state.NotSent? <==> Released(t, k, p))
      && (forall r :: q.response == Some(r) <==> Says(t.c.applied, AnswerEvent(k, p, r)))
      && (!q.state.NotSent? && q.response.None? ==> LeftToTheOwner(s, t, p, Concluded(moves)))
  {
    hide Known, Run, Released, Says, OpenCall, LeftToTheOwner, NoEnd;
    RunIsKnown(s0, before);
    SpecOfRun(s0, before);
    var s := Run(s0, before);
    OpenCallSettles(s, moves, p);
    if OpenCall(s.spec, Run(s, moves).c.ledger.permits[p]) { OpenCallIsLeft(s, moves, p); }
  }

  lemma {:induction false} SpecOfRun(s: System, moves: seq<Move>)
    ensures Run(s, moves).spec == s.spec
  {
    hide Next;
    if moves != [] {
      SpecOfRun(s, moves[..|moves| - 1]);
      SpecStays(Run(s, moves[..|moves| - 1]), moves[|moves| - 1]);
    }
  }

  /** A granted permit of which the journal says nothing is proved unsent by a whole recovery exactly when its row was
      never marked sent; otherwise it stays open for the owner. */
  lemma UnusedGrantReleasedExactlyWhenUnmarked(s0: System, before: seq<Move>, moves: seq<Move>, p: nat)
    requires Created(s0) && MayRecover(Run(s0, before)) && Whole(Run(s0, before), moves)
    requires p in Run(s0, before).c.grants && p < |Run(s0, before).c.ledger.permits|
    requires OpenCall(s0.spec, Run(s0, before).c.ledger.permits[p]) && Unmentioned(Run(s0, before).j.events, p)
    ensures
      var s, t := Run(s0, before), Run(Run(s0, before), moves);
      var k := s.c.grants[p].step;
      && p < |t.c.ledger.permits| && k in s.j.models
      && (t.c.ledger.permits[p].state.NotSent? <==> s.j.models[k].permit.None?)
      && (!t.c.ledger.permits[p].state.NotSent? ==> LeftToTheOwner(s, t, p, Concluded(moves)))
  {
    hide Known, Run, Says, OpenCall, LeftToTheOwner, NoEnd;
    RunIsKnown(s0, before);
    SpecOfRun(s0, before);
    var s := Run(s0, before);
    var t, k := Run(s, moves), s.c.grants[p].step;
    RowsKnown(s, p);
    RecoveryGround(s, moves);
    RecoverySettlesExactly(s0, before, moves, p);
    NothingApplied(t, k, p);
    forall r ensures t.c.ledger.permits[p].response != Some(r) { assert !Says(t.c.applied, AnswerEvent(k, p, r)); }
  }

  /** What the journal does not mention is neither proved by it nor answered. */
  lemma NothingApplied(s: System, k: nat, p: nat)
    requires Known(s) && Unmentioned(s.j.events, p) && k in s.j.models
    ensures !Says(s.c.applied, FailureEvent(k, p, true)) && forall r :: !Says(s.c.applied, AnswerEvent(k, p, r))
    ensures s.j.models[k].permit == Some(p) ==> !s.j.models[k].state.CallNotSent?
  {
    hide Safe, ToolInv, StopInv, AppliedTook;
    assert RowReported(s.j, k);
    forall i | 0 <= i < |s.c.applied| ensures Subject(s.c.applied[i]) != Some(p) {
      assert s.c.applied[i] == s.j.events[i];
    }
  }

  /** The limit of the release: after a retry the row keeps the permit of its first call, and no recovery, whole or
      broken off, changes anything about a second grant that was never used. Its money stays held until the owner
      decides. */
  lemma SecondGrantStaysHeld(s0: System, before: seq<Move>, moves: seq<Move>, k: nat, p: nat)
    requires Created(s0) && MayRecover(Run(s0, before)) && Recovery(moves)
    requires SecondGrant(Run(s0, before), k, p) && Unmentioned(Run(s0, before).j.events, p)
    ensures
      var s, t := Run(s0, before), Run(Run(s0, before), moves);
      && p < |t.c.ledger.permits| && t.c.ledger.permits[p] == s.c.ledger.permits[p]
      && (OpenCall(s.spec, s.c.ledger.permits[p]) ==> LeftToTheOwner(s, t, p, Concluded(moves)))
  {
    hide Known, Run, OpenCall, LeftToTheOwner, NoEnd, Unheard, Unmentioned;
    RunIsKnown(s0, before);
    var s := Run(s0, before);
    SecondGrantIsUnheard(s, k, p);
    UnheardStays(s, moves, p);
    if OpenCall(s.spec, s.c.ledger.permits[p]) { OpenCallIsLeft(s, moves, p); }
  }

  /** A first permit that was never granted is proved unsent by any recovery that reaches it. */
  lemma UngrantedFirstPermitIsReleased(s0: System, before: seq<Move>, moves: seq<Move>)
    requires Created(s0) && MayRecover(Run(s0, before)) && Recovery(moves) && RecoverFirst in moves
    requires
      var s := Run(s0, before);
      s.c.firstPermit !in s.c.grants && s.c.firstPermit < |s.c.ledger.permits|
      && OpenCall(s.spec, s.c.ledger.permits[s.c.firstPermit])
    ensures
      var s, t := Run(s0, before), Run(Run(s0, before), moves);
      s.c.firstPermit < |t.c.ledger.permits| && t.c.ledger.permits[s.c.firstPermit].state.NotSent?
  {
    hide Known, Run, OpenCall, Unheard;
    RunIsKnown(s0, before);
    UngrantedIsUnheard(Run(s0, before));
    FirstIsClosed(Run(s0, before), moves);
  }

  lemma UngrantedIsUnheard(s: System)
    requires Known(s) && s.c.firstPermit !in s.c.grants
    ensures Unheard(s, s.c.firstPermit)
  {
    hide Ledger.Inv, CallInv, EventInv, PhaseInv, AnswerInv, DeliveryInv, ToolInv, StopInv, Reported, AppliedTook,
        Unmentioned;
    MoneyOfKnown(s);
    UngrantedMayFail(s, s.c.firstPermit);
    forall i | i in s.j.models ensures s.j.models[i].permit != Some(s.c.firstPermit) {
      assert RowOk(s.spec, s.j, s.c.grants, i);
    }
  }

  lemma MoneyOfKnown(s: System)
    requires Known(s)
    ensures MoneyInv(s)
  {
  }

  // ---- Recoveries that read the journal to its end ----

  /** What becomes of the calls that were open. */
  ghost predicate Resolved(s: System, t: System) {
    && t.c.lastSequence == |s.j.events|
    && (forall p :: p in s.c.grants && p < |s.c.ledger.permits| && OpenCall(s.spec, s.c.ledger.permits[p]) ==>
        Settles(s, t, p))
    && var p := s.c.firstPermit;
       p !in s.c.grants && p < |s.c.ledger.permits| && OpenCall(s.spec, s.c.ledger.permits[p]) ==>
         p < |t.c.ledger.permits| && t.c.ledger.permits[p].state.NotSent?
  }

  /** Proved unsent when its row was never marked sent or the journal says so, answered when the journal says so, and
      otherwise left to the owner. */
  ghost predicate Settles(s: System, t: System, p: nat)
    requires p in s.c.grants
  {
    var k := s.c.grants[p].step;
    && k in s.j.models && p < |t.c.ledger.permits|
    && var q := t.c.ledger.permits[p];
    && (q.state.NotSent? <==> s.j.models[k].permit.None? || Says(s.j.events, FailureEvent(k, p, true)))
    && (forall r :: q.response == Some(r) <==> Says(s.j.events, AnswerEvent(k, p, r)))
    && (!q.state.NotSent? && q.response.None? ==> LeftToTheOwner(s, t, p, true))
  }

  lemma ReleasedAsReported(s: System, k: nat, p: nat)
    requires Known(s) && s.c.lastSequence == |s.j.events| && k in s.j.models
    ensures s.c.applied == s.j.events
    ensures Released(s, k, p) <==> s.j.models[k].permit.None? || Says(s.j.events, FailureEvent(k, p, true))
  {
    hide Safe, ToolInv, StopInv, AppliedTook, Says, SaysOnly, Unmentioned;
    assert RowReported(s.j, k);
  }

  lemma WholeIsRecovery(s: System, moves: seq<Move>)
    requires Whole(s, moves)
    ensures Recovery(moves) && RecoverFirst in moves
  {
  }

  /** A whole recovery that has concluded and applied the whole journal. */
  lemma FullRecoveryResolves(s0: System, before: seq<Move>, moves: seq<Move>)
    requires Created(s0) && MayRecover(Run(s0, before)) && Whole(Run(s0, before), moves) && Concluded(moves)
    requires Run(Run(s0, before), moves).c.lastSequence == |Run(s0, before).j.events|
    ensures Resolved(Run(s0, before), Run(Run(s0, before), moves))
  {
    hide Known, Run, Released, Says, OpenCall, LeftToTheOwner, Whole, Concluded;
    RunIsKnown(s0, before);
    SpecOfRun(s0, before);
    var s := Run(s0, before);
    var t := Run(s, moves);
    WholeIsRecovery(s, moves);
    RecoveryGround(s, moves);
    forall p | p in s.c.grants && p < |s.c.ledger.permits| && OpenCall(s.spec, s.c.ledger.permits[p])
      ensures Settles(s, t, p)
    {
      RowsKnown(s, p);
      RecoverySettlesExactly(s0, before, moves, p);
      ReleasedAsReported(t, s.c.grants[p].step, p);
    }
    if s.c.firstPermit !in s.c.grants && s.c.firstPermit < |s.c.ledger.permits|
        && OpenCall(s.spec, s.c.ledger.permits[s.c.firstPermit]) {
      UngrantedFirstPermitIsReleased(s0, before, moves);
    }
  }

  // ---- Suspensions over a tool of unknown outcome ----

  /** An end that was journaled between two positions. */
  ghost predicate EndBetween(events: seq<Event>, from: nat, to: nat) {
    exists i :: from <= i < to && i < |events| && events[i].FinishEvent?
  }

  ghost predicate EndsEnd(events: seq<Event>) {
    forall i :: 0 <= i < |events| && events[i].FinishEvent? ==> !Active(events[i].kind)
  }

  /** Applying events ends an active attempt exactly when an end is among them. */
  lemma {:induction false} DrainEndsExactly(spec: Spec, c: Controller, events: seq<Event>)
    requires FromJournal(c.inbox, events) && EndsEnd(events) && Drain(spec, c).Ok?
    ensures
      var d := Drain(spec, c).value;
      && c.lastSequence <= d.lastSequence
      && (Active(d.attempt) <==> Active(c.attempt) && !EndBetween(events, c.lastSequence, d.lastSequence))
    decreases Buffered(c)
  {
    hide Ledger.Respond, Ledger.Fail;
    var n := c.lastSequence + 1;
    if n in c.inbox {
      var a := ApplyEvent(spec, c, c.inbox[n]).value;
      var d := a.(lastSequence := n, applied := a.applied + [c.inbox[n]]);
      assert n in Buffered(c) && n !in Buffered(d) && Buffered(d) <= Buffered(c);
      assert Active(d.attempt) <==> Active(c.attempt) && !events[n - 1].FinishEvent?;
      DrainEndsExactly(spec, d, events);
      EndsSplit(events, c.lastSequence, n, Drain(spec, d).value.lastSequence);
    }
  }

  lemma EndsSplit(events: seq<Event>, a: nat, b: nat, c: nat)
    requires a <= b <= c
    ensures EndBetween(events, a, c) <==> EndBetween(events, a, b) || EndBetween(events, b, c)
  {
  }

  /** What a recovery leaves as it was until it concludes, and when it has ended the attempt. */
  ghost predicate Undecided(s: System, t: System) {
    && SameGround(s, t) && t.c.commands == s.c.commands && t.c.stops == s.c.stops && t.c.launch == s.c.launch
    && s.c.lastSequence <= t.c.lastSequence
    && (Active(t.c.attempt) <==> Active(s.c.attempt) && !EndBetween(s.j.events, s.c.lastSequence, t.c.lastSequence))
  }

  lemma DeliverUndecided(s: System, n: nat)
    requires Safe(s) && DeliveryInv(s)
    ensures Undecided(s, OnDeliver(s, n))
  {
    hide Ledger.Inv, JournalInv, GrantInv, CallInv, PhaseInv, AnswerInv, SameGround;
    DeliverKeepsGround(s, n);
    if OnDeliver(s, n) != s {
      forall i | 0 <= i < |s.j.events| && s.j.events[i].FinishEvent? ensures !Active(s.j.events[i].kind) {
        assert EventOk(s, s.j.events[i]);
      }
      DrainEndsExactly(s.spec, Posted(s, n).c, s.j.events);
      DrainKeepsCommands(s.spec, Posted(s, n).c);
    }
  }

  /** Settling a call writes money rows only. */
  lemma RecoverWritesMoneyOnly(s: System, k: nat, p: nat)
    ensures OnRecoverRow(s, k).c == s.c.(ledger := OnRecoverRow(s, k).c.ledger)
    ensures OnRecoverUnsent(s, k, p).c == s.c.(ledger := OnRecoverUnsent(s, k, p).c.ledger)
    ensures OnRecoverFirst(s).c == s.c.(ledger := OnRecoverFirst(s).c.ledger)
  {
    hide Ledger.Fail;
  }

  lemma NextUndecided(s: System, m: Move)
    requires Known(s) && Recovers(m) && !m.Conclude?
    ensures Undecided(s, Next(s, m))
  {
    hide Known, Safe, DeliveryInv, Next, OnDeliver, OnConclude, OnRecoverRow, OnRecoverUnsent, OnRecoverFirst,
        SameGround;
    NextKeepsGround(s, m);
    RecoveryIsNext(s, m);
    if m.Deliver? {
      KnownDelivers(s);
      DeliverUndecided(s, m.sequence);
    } else {
      RecoverWritesMoneyOnly(s, if m.RecoverRow? || m.RecoverUnsent? then m.step else 0,
        if m.RecoverUnsent? then m.permit else 0);
    }
  }

  lemma KnownDelivers(s: System)
    requires Known(s)
    ensures Safe(s) && DeliveryInv(s) && StopInv(s)
  {
    hide Safe, DeliveryInv, StopInv, ToolInv, Reported, AppliedTook;
  }

  lemma {:induction false} RecoveryUndecided(s: System, moves: seq<Move>)
    requires Known(s) && Recovery(moves) && !Concluded(moves)
    ensures Known(Run(s, moves)) && Undecided(s, Run(s, moves))
  {
    hide Known, Next;
    if moves != [] {
      var t, m := Run(s, moves[..|moves| - 1]), moves[|moves| - 1];
      RecoveryUndecided(s, moves[..|moves| - 1]);
      NextUndecided(t, m);
      NextKeepsKnown(t, m);
      EndsSplit(s.j.events, s.c.lastSequence, t.c.lastSequence, Next(t, m).c.lastSequence);
    }
  }

  /** Exactly when a recovery, at any point of any run, suspends an attempt over a tool whose outcome it does not know:
      its reading of the journal broke off after an earlier suspension had been seen, the first call was granted, no
      call is left open, and what it applied does not end the attempt. */
  lemma SuspendsOverUnknownToolExactlyWhen(s0: System, before: seq<Move>, moves: seq<Move>, reading: Reading)
    requires Created(s0) && MayRecover(Run(s0, before)) && Recovery(moves) && !Concluded(moves)
    requires
      var s := Run(s0, before);
      Active(s.c.attempt) && s.c.epoch !in s.c.stops && UnknownTool(s.j, s.c)
    ensures
      var s, t := Run(s0, before), Run(Run(s0, before), moves + [Conclude(reading)]);
      && UnknownTool(t.j, t.c)
      && (t.c.launch.LaunchSuspended? <==>
            && reading.Broken? && reading.seen.Some? && SuspendReason(reading.seen.value)
            && s.c.firstPermit in s.c.grants
            && !UnknownOutcome(t.spec, t.c)
            && !EndBetween(s.j.events, s.c.lastSequence, t.c.lastSequence))
  {
    hide Known, Run, Next, UnknownTool, UnknownOutcome, SuspendReason, EndBetween, LastSuspension;
    RunIsKnown(s0, before);
    var s := Run(s0, before);
    RecoveryUndecided(s, moves);
    var u := Run(s, moves);
    RunOfParts(s, moves, [Conclude(reading)]);
    OneMove(u, Conclude(reading));
    RecoveryIsNext(u, Conclude(reading));
    SameTools(s.j, s.c, u.c);
    ConcludesOverUnknownTool(u, reading);
  }

  lemma OneMove(s: System, m: Move)
    ensures Run(s, [m]) == Next(s, m)
  {
    hide Next;
    assert [m][..0] == [];
  }

  /** The conclusion alone. */
  lemma ConcludesOverUnknownTool(s: System, reading: Reading)
    requires MayRecover(s) && s.c.epoch !in s.c.stops && UnknownTool(s.j, s.c)
    ensures
      var t := OnConclude(s, reading);
      && UnknownTool(t.j, t.c) && UnknownOutcome(t.spec, t.c) == UnknownOutcome(s.spec, s.c)
      && t.c.lastSequence == s.c.lastSequence
      && (t.c.launch.LaunchSuspended? <==>
            && reading.Broken? && reading.seen.Some? && SuspendReason(reading.seen.value)
            && s.c.firstPermit in s.c.grants && !UnknownOutcome(s.spec, s.c) && Active(s.c.attempt))
  {
    hide SuspendReason, LastSuspension;
    SameTools(s.j, s.c, OnConclude(s, reading).c);
  }
}
