/** The guarantees of the worker protocol, for every run. */
module WorkerResults {
  import opened Wrappers
  import opened AttemptStates
  import opened Journal
  import opened WorkerProtocol
  import opened WorkerRuns
  import opened WorkerSafety
  import opened WorkerController
  import opened WorkerTools
  import opened WorkerTheorems
  import Ledger
  import Money

  ghost predicate Inv(s: System) {
    Safe(s) && DeliveryInv(s) && ToolInv(s) && StopInv(s)
  }

  lemma CreatedInv(s: System)
    requires Created(s)
    ensures Inv(s)
  {
  }

  lemma NextKeepsInv(s: System, m: Move)
    requires Inv(s)
    ensures Inv(Next(s, m))
  {
    hide Ledger.Inv, JournalInv, GrantInv, CallInv, EventInv, PhaseInv, AnswerInv, DeliveryInv, ToolInv, StopInv, Next;
    NextKeepsSafe(s, m);
    NextKeepsDelivery(s, m);
    NextKeepsTools(s, m);
    NextKeepsStop(s, m);
  }

  lemma {:induction false} RunKeepsInv(s: System, moves: seq<Move>)
    requires Created(s)
    ensures Inv(Run(s, moves))
  {
    hide Next, Inv;
    if moves == [] {
      CreatedInv(s);
    } else {
      RunKeepsInv(s, moves[..|moves| - 1]);
      NextKeepsInv(Run(s, moves[..|moves| - 1]), moves[|moves| - 1]);
    }
  }

  // ---- Calls and money ----

  /** A permit is proved unsent only if no call under it could have been delivered. */
  lemma UnsentPermitsWereNeverDelivered(s0: System, moves: seq<Move>, i: nat)
    requires Created(s0) && i < |Run(s0, moves).calls| && !Run(s0, moves).calls[i].verdict.ProvedUnsent?
    ensures
      var s := Run(s0, moves);
      s.calls[i].permit < |s.c.ledger.permits| && !s.c.ledger.permits[s.calls[i].permit].state.NotSent?
  {
    RunKeepsInv(s0, moves);
    var s := Run(s0, moves);
    assert CallOk(s.j, s.c.grants, s.c.ledger.permits, s.calls[i]);
  }

  /** What is reserved for calls that may have been delivered and are not settled. */
  function AtStake(calls: seq<ProviderCall>, permits: seq<Ledger.Permit>): nat {
    if calls == [] then 0
    else
      var c := calls[|calls| - 1];
      AtStake(calls[..|calls| - 1], permits)
      + if !c.verdict.ProvedUnsent? && c.permit < |permits| && !permits[c.permit].state.Settled?
          then permits[c.permit].reservedMicros else 0
  }

  lemma {:induction false} AtStakeIsHeld(calls: seq<ProviderCall>, permits: seq<Ledger.Permit>)
    requires forall i :: 0 <= i < |calls| ==> !calls[i].verdict.ProvedUnsent? ==>
        calls[i].permit < |permits| && !permits[calls[i].permit].state.NotSent?
    requires forall i, i' :: 0 <= i < i' < |calls| ==> calls[i].permit != calls[i'].permit
    ensures AtStake(calls, permits) <= Ledger.Sum(Ledger.HeldOf, permits)
  {
    if calls != [] {
      var n := |calls| - 1;
      var p := calls[n].permit;
      if p < |permits| {
        var q := permits[p].(state := Ledger.Settled);
        AtStakeElsewhere(calls[..n], permits, p, q);
        AtStakeIsHeld(calls[..n], permits[p := q]);
        Ledger.SumUpdate(Ledger.HeldOf, permits, p, q);
      } else {
        AtStakeIsHeld(calls[..n], permits);
      }
    }
  }

  lemma {:induction false} AtStakeElsewhere(calls: seq<ProviderCall>, permits: seq<Ledger.Permit>, p: nat,
      q: Ledger.Permit)
    requires p < |permits| && forall i :: 0 <= i < |calls| ==> calls[i].permit != p
    ensures AtStake(calls, permits[p := q]) == AtStake(calls, permits)
  {
    if calls != [] {
      AtStakeElsewhere(calls[..|calls| - 1], permits, p, q);
    }
  }

  /** Money for possibly delivered calls stays in the company's held sum until those calls are settled, through every
      crash. */
  lemma MoneyAtStakeStaysHeld(s0: System, moves: seq<Move>)
    requires Created(s0)
    ensures AtStake(Run(s0, moves).calls, Run(s0, moves).c.ledger.permits) <= Ledger.Held(Run(s0, moves).c.ledger)
  {
    RunKeepsInv(s0, moves);
    var s := Run(s0, moves);
    forall i | 0 <= i < |s.calls| && !s.calls[i].verdict.ProvedUnsent?
      ensures s.calls[i].permit < |s.c.ledger.permits| && !s.c.ledger.permits[s.calls[i].permit].state.NotSent?
    {
      assert CallOk(s.j, s.c.grants, s.c.ledger.permits, s.calls[i]);
    }
    AtStakeIsHeld(s.calls, s.c.ledger.permits);
  }

  /** Of the calls of one step, all but at most one are proved unsent. */
  lemma OneUnprovenCallPerStep(s0: System, moves: seq<Move>, i: nat, i': nat)
    requires Created(s0) && i < i' < |Run(s0, moves).calls|
        && Run(s0, moves).calls[i].step == Run(s0, moves).calls[i'].step
    ensures Run(s0, moves).calls[i].verdict.ProvedUnsent?
  {
    RunKeepsInv(s0, moves);
    var s := Run(s0, moves);
    assert CallOk(s.j, s.c.grants, s.c.ledger.permits, s.calls[i])
        && CallOk(s.j, s.c.grants, s.c.ledger.permits, s.calls[i']);
  }

  lemma {:induction false} DistinctBelow(xs: seq<nat>, n: nat)
    requires forall i :: 0 <= i < |xs| ==> xs[i] < n
    requires forall i, i' :: 0 <= i < i' < |xs| ==> xs[i] != xs[i']
    ensures |xs| <= n
  {
    if |xs| > 0 {
      assert xs[0] < n;
    }
    if n > 0 && n - 1 in xs {
      var k :| 0 <= k < |xs| && xs[k] == n - 1;
      var ys := xs[..k] + xs[k + 1..];
      forall i | 0 <= i < |ys| ensures ys[i] == xs[if i < k then i else i + 1] {
      }
      DistinctBelow(ys, n - 1);
    } else if n > 0 {
      DistinctBelow(xs, n - 1);
    }
  }

  lemma SlotBelow(step: nat, transport: nat, steps: nat, width: nat)
    requires step < steps && transport < width
    ensures step * width + transport < steps * width
  {
    assert (step + 1) * width <= steps * width;
  }

  lemma SlotsDiffer(a: nat, x: nat, b: nat, y: nat, width: nat)
    requires x < width && y < width && (a != b || x != y)
    ensures a * width + x != b * width + y
  {
    if a < b {
      assert (a + 1) * width <= b * width;
    } else if b < a {
      assert (b + 1) * width <= a * width;
    }
  }

  lemma CallsWithinLimits(s: System, i: nat)
    requires MoneyInv(s) && i < |s.calls|
    ensures s.calls[i].step < s.spec.maxSteps && 1 <= s.calls[i].transport <= s.spec.retries + 1
  {
    assert CallOk(s.j, s.c.grants, s.c.ledger.permits, s.calls[i]);
    assert RowOk(s.spec, s.j, s.c.grants, s.calls[i].step);
  }

  lemma DistinctCalls(calls: seq<ProviderCall>, steps: nat, width: nat)
    requires forall i :: 0 <= i < |calls| ==> calls[i].step < steps && 1 <= calls[i].transport <= width
    requires forall i, i' :: 0 <= i < i' < |calls| && calls[i].step == calls[i'].step ==>
        calls[i].transport < calls[i'].transport
    ensures |calls| <= steps * width
  {
    var slots: seq<nat> := seq(|calls|, i requires 0 <= i < |calls| => calls[i].step * width
        + (calls[i].transport - 1));
    forall i | 0 <= i < |slots| ensures slots[i] < steps * width {
      SlotBelow(calls[i].step, calls[i].transport - 1, steps, width);
    }
    forall i, i' | 0 <= i < i' < |slots| ensures slots[i] != slots[i'] {
      SlotsDiffer(calls[i].step, calls[i].transport - 1, calls[i'].step, calls[i'].transport - 1, width);
    }
    DistinctBelow(slots, steps * width);
  }

  /** Over any number of crashes and resumes an attempt makes at most `retries + 1` calls a step, and `maxSteps` times
      as many in all. */
  lemma CallsAreBounded(s0: System, moves: seq<Move>)
    requires Created(s0)
    ensures
      var s := Run(s0, moves);
      && |s.calls| <= s.spec.maxSteps * (s.spec.retries + 1)
      && forall i :: 0 <= i < |s.calls| ==>
          s.calls[i].step < s.spec.maxSteps && 1 <= s.calls[i].transport <= s.spec.retries + 1
  {
    hide Ledger.Inv, JournalInv, GrantInv, EventInv, PhaseInv, AnswerInv, DeliveryInv, ToolInv, StopInv, Next;
    RunKeepsInv(s0, moves);
    var s := Run(s0, moves);
    forall i | 0 <= i < |s.calls| ensures s.calls[i].step < s.spec.maxSteps
        && 1 <= s.calls[i].transport <= s.spec.retries + 1 {
      CallsWithinLimits(s, i);
    }
    DistinctCalls(s.calls, s.spec.maxSteps, s.spec.retries + 1);
  }

  /** While a call is open, however it came to be, recovery blocks the attempt for review and never suspends it. */
  lemma OpenCallBlocksForReview(s: System, p: nat, reading: Reading)
    requires MayRecover(s) && Active(s.c.attempt) && s.c.epoch !in s.c.stops
    requires p < |s.c.ledger.permits| && OpenCall(s.spec, s.c.ledger.permits[p])
    ensures OnConclude(s, reading).c.attempt.Blocked? && OnConclude(s, reading).c.launch.Exited?
    ensures OnConclude(s, reading).c.reason == "CALL_OUTCOME_UNKNOWN"
  {
  }

  // ---- Delivery ----

  lemma AppliedIsAJournalPrefix(s0: System, moves: seq<Move>)
    requires Created(s0)
    ensures
      var s := Run(s0, moves);
      s.c.lastSequence <= |s.j.events| && s.c.applied == s.j.events[..s.c.lastSequence]
      && forall n :: n in s.j.acked ==> n in s.c.inbox && 1 <= n <= |s.j.events| && s.c.inbox[n] == s.j.events[n - 1]
  {
    RunKeepsInv(s0, moves);
  }

  /** Nothing applied is ever undone or applied again: later states only extend the applied events. */
  lemma {:induction false} AppliedOnlyGrows(s0: System, moves: seq<Move>, more: seq<Move>)
    requires Created(s0)
    ensures Run(s0, moves).c.applied <= Run(s0, moves + more).c.applied
    ensures Run(s0, moves).j.events <= Run(s0, moves + more).j.events
  {
    hide Safe, ToolInv, StopInv, Next;
    if more == [] {
      assert moves + more == moves;
    } else {
      var all := moves + more;
      assert all[..|all| - 1] == moves + more[..|more| - 1];
      AppliedOnlyGrows(s0, moves, more[..|more| - 1]);
      RunKeepsInv(s0, all[..|all| - 1]);
      MoveOnlyApplies(Run(s0, all[..|all| - 1]), all[|all| - 1]);
    }
  }

  lemma MoveOnlyApplies(s: System, m: Move)
    requires DeliveryInv(s)
    ensures s.c.applied <= Next(s, m).c.applied && s.j.events <= Next(s, m).j.events
  {
    NextKeepsDelivery(s, m);
    JournalGrows(s, m);
    assert Next(s, m).c.applied[..s.c.lastSequence] == s.c.applied;
  }

  ghost predicate Payable(c: Controller, e: Event) {
    e.AnswerEvent? ==> e.permit < |c.ledger.permits| && Ledger.Accepts(c.ledger.permits[e.permit], e.response)
  }

  /** Every event not yet applied could be applied now. */
  ghost predicate AllPayable(c: Controller, events: seq<Event>) {
    forall i :: c.lastSequence <= i < |events| ==> Payable(c, events[i])
  }

  lemma EventApplies(s: System, e: Event)
    requires MoneyInv(s) && e in s.j.events
    ensures ApplyEvent(s.spec, s.c, e).Ok? <==> Payable(s.c, e)
  {
    var i :| 0 <= i < |s.j.events| && s.j.events[i] == e;
    assert EventOk(s, e);
    if Subject(e).Some? {
      assert GrantOk(s.spec, s.j, s.c.grants, s.c.ledger.permits, Subject(e).value);
    }
    if e.AnswerEvent? {
      Ledger.RespondAccepts(s.c.ledger, e.permit, e.response);
    }
  }

  lemma ApplyChangesOneRow(spec: Spec, c: Controller, e: Event)
    requires ApplyEvent(spec, c, e).Ok?
    ensures
      var a := ApplyEvent(spec, c, e).value;
      && |a.ledger.permits| == |c.ledger.permits|
      && (forall p :: 0 <= p < |c.ledger.permits| && Some(p) != Subject(e) ==>
          a.ledger.permits[p] == c.ledger.permits[p])
      && (e.AnswerEvent? ==> e.permit < |a.ledger.permits| && a.ledger.permits[e.permit].response == Some(e.response))
  {
    hide Money.BillOf, Money.CostMicros;
  }

  /** Applying one event neither enables nor disables another: two events speak of one permit only when they carry one
      response. */
  lemma EventsAreIndependent(s: System, e: Event, e': Event)
    requires MoneyInv(s) && e in s.j.events && e' in s.j.events && ApplyEvent(s.spec, s.c, e).Ok?
    ensures Payable(s.c, e') <==> Payable(ApplyEvent(s.spec, s.c, e).value, e')
  {
    hide JournalInv, GrantInv, CallInv, PhaseInv, AnswerInv, Money.BillOf;
    var i :| 0 <= i < |s.j.events| && s.j.events[i] == e;
    var i' :| 0 <= i' < |s.j.events| && s.j.events[i'] == e';
    assert EventOk(s, e) && EventOk(s, e');
    ApplyChangesOneRow(s.spec, s.c, e);
    if e'.AnswerEvent? && Subject(e) == Subject(e') {
      assert e == e';
      EventApplies(s, e);
    }
  }

  /** A drain succeeds when everything waiting is payable, and leaves the payability of what remains as it was. */
  lemma {:induction false} DrainPays(s: System)
    requires Safe(s) && Draining(s.c, s.j.events)
    ensures AllPayable(s.c, s.j.events) ==> Drain(s.spec, s.c).Ok?
    ensures Drain(s.spec, s.c).Ok? ==>
        (AllPayable(s.c, s.j.events) <==> AllPayable(Drain(s.spec, s.c).value, s.j.events))
    decreases Buffered(s.c)
  {
    hide Ledger.Inv, JournalInv, GrantInv, CallInv, EventInv, PhaseInv, AnswerInv;
    var n := s.c.lastSequence + 1;
    if n in s.c.inbox {
      var e := s.c.inbox[n];
      assert e == s.j.events[n - 1];
      EventApplies(s, e);
      if ApplyEvent(s.spec, s.c, e).Ok? {
        ApplyKeepsSafe(s, e);
        var a := s.(c := ApplyEvent(s.spec, s.c, e).value);
        var d := a.(c := a.c.(lastSequence := n, applied := a.c.applied + [e]));
        InboxFrame(a, d);
        assert n in Buffered(s.c) && n !in Buffered(d.c) && Buffered(d.c) <= Buffered(s.c);
        assert d.c.applied == s.j.events[..n];
        ApplyPays(s, n);
        DrainPays(d);
      }
    }
  }

  /** Applying the next event removes one payable event and changes nothing for the others. */
  lemma ApplyPays(s: System, n: nat)
    requires MoneyInv(s) && n == s.c.lastSequence + 1 && n <= |s.j.events|
        && ApplyEvent(s.spec, s.c, s.j.events[n - 1]).Ok?
    ensures AllPayable(s.c, s.j.events) <==>
        AllPayable(ApplyEvent(s.spec, s.c, s.j.events[n - 1]).value.(lastSequence := n,
        applied := s.c.applied + [s.j.events[n - 1]]), s.j.events)
  {
    var e := s.j.events[n - 1];
    EventApplies(s, e);
    forall i | n <= i < |s.j.events| ensures Payable(s.c, s.j.events[i]) <==>
        Payable(ApplyEvent(s.spec, s.c, e).value, s.j.events[i]) {
      EventsAreIndependent(s, e, s.j.events[i]);
    }
  }

  /** A delivered event that was not there yet, before the drain. */
  function Posted(s: System, n: nat): System
    requires 1 <= n <= |s.j.events|
  {
    s.(c := s.c.(inbox := s.c.inbox[n := s.j.events[n - 1]]))
  }

  lemma DeliverIsDrain(s: System, n: nat)
    requires FromJournal(s.c.inbox, s.j.events) && 1 <= n <= |s.j.events|
    ensures
      OnDeliver(s, n) == if n !in s.c.inbox && Drain(s.spec, Posted(s, n).c).Ok?
          then s.(c := Drain(s.spec, Posted(s, n).c).value) else s
  {
  }

  lemma DeliverPays(s: System, n: nat)
    requires Safe(s) && DeliveryInv(s) && 1 <= n <= |s.j.events|
    ensures AllPayable(s.c, s.j.events) <==> AllPayable(OnDeliver(s, n).c, s.j.events)
    ensures AllPayable(s.c, s.j.events) ==> n in OnDeliver(s, n).c.inbox
    ensures s.c.inbox.Keys <= OnDeliver(s, n).c.inbox.Keys
  {
    hide Ledger.Inv, MoneyInv, Next, AllPayable, Drain, OnDeliver;
    DeliverIsDrain(s, n);
    if n !in s.c.inbox {
      var u := Posted(s, n);
      InboxFrame(s, u);
      assert Draining(u.c, u.j.events);
      DrainPays(u);
      SamePayable(s.c, u.c, s.j.events);
      if Drain(u.spec, u.c).Ok? {
        DrainKeepsCommands(u.spec, u.c);
      }
    }
  }

  lemma SamePayable(c: Controller, d: Controller, events: seq<Event>)
    requires d.ledger.permits == c.ledger.permits && d.lastSequence == c.lastSequence
    ensures AllPayable(c, events) <==> AllPayable(d, events)
  {
    assert forall e :: Payable(c, e) <==> Payable(d, e);
  }

  /** The deliveries a recovery makes: the whole journal, from its first event. */
  function Replay(n: nat): seq<Move> {
    if n == 0 then [] else Replay(n - 1) + [Deliver(n)]
  }

  lemma {:induction false} ReplayLength(n: nat)
    ensures |Replay(n)| == n && (n > 0 ==> Replay(n)[..n - 1] == Replay(n - 1) && Replay(n)[n - 1] == Deliver(n))
  {
    if n > 0 { ReplayLength(n - 1); }
  }

  lemma NextDeliver(s: System, n: nat)
    requires Safe(s) && DeliveryInv(s)
    ensures Next(s, Deliver(n)) == OnDeliver(s, n) == s.(c := OnDeliver(s, n).c)
    ensures Safe(OnDeliver(s, n)) && DeliveryInv(OnDeliver(s, n))
  {
    hide ModelNext, ToolNext, ProcessNext, LeavingNext, ControllerNext, Ledger.Inv, MoneyInv, Drain;
    DeliverKeepsSafe(s, n);
    DeliverKeepsDelivery(s, n);
  }

  lemma {:induction false} ReplayKeeps(s: System, n: nat)
    requires Safe(s) && DeliveryInv(s) && n <= |s.j.events|
    ensures Safe(Run(s, Replay(n))) && DeliveryInv(Run(s, Replay(n)))
        && Run(s, Replay(n)) == s.(c := Run(s, Replay(n)).c)
    ensures n > 0 ==> Run(s, Replay(n)) == OnDeliver(Run(s, Replay(n - 1)), n)
  {
    hide Ledger.Inv, MoneyInv, DeliveryInv, Next, OnDeliver;
    ReplayLength(n);
    if n > 0 {
      ReplayKeeps(s, n - 1);
      NextDeliver(Run(s, Replay(n - 1)), n);
    }
  }

  lemma {:induction false} ReplayPays(s: System, n: nat)
    requires Safe(s) && DeliveryInv(s) && n <= |s.j.events|
    ensures
      var t := Run(s, Replay(n));
      && (AllPayable(s.c, s.j.events) <==> AllPayable(t.c, s.j.events))
      && (AllPayable(s.c, s.j.events) ==> forall i :: 1 <= i <= n ==> i in t.c.inbox)
  {
    hide Ledger.Inv, MoneyInv, DeliveryInv, Next, OnDeliver, AllPayable;
    ReplayKeeps(s, n);
    if n > 0 {
      ReplayKeeps(s, n - 1);
      ReplayPays(s, n - 1);
      DeliverPays(Run(s, Replay(n - 1)), n);
    }
  }

  /** After a replay the controller has applied the whole journal exactly when every event it had not applied could be:
      that is, unless a bill was settled by hand to another amount, or a response claims an impossible usage. */
  lemma ReplayCompletesExactlyWhenPayable(s0: System, moves: seq<Move>)
    requires Created(s0)
    ensures
      var s := Run(s0, moves);
      var t := Run(s, Replay(|s.j.events|));
      t.c.lastSequence == |s.j.events| <==> AllPayable(s.c, s.j.events)
  {
    RunKeepsInv(s0, moves);
    var s := Run(s0, moves);
    ReplayKeeps(s, |s.j.events|);
    ReplayPays(s, |s.j.events|);
  }

  // ---- Tools ----

  /** A tool other than the artifact writer takes effect at most once, across crashes of either side. */
  lemma ToolsTakeEffectAtMostOnce(s0: System, moves: seq<Move>, id: ToolId)
    requires Created(s0) && id in Run(s0, moves).j.tools && !Run(s0, moves).j.tools[id].tool.SaveArtifact?
    ensures Run(s0, moves).effects[id] <= 1
  {
    RunKeepsInv(s0, moves);
    var s := Run(s0, moves);
    assert ToolOk(s, id);
    if id in s.c.commands {
      assert CommandOk(s.j.tools, s.effects, id, s.c.commands[id]);
    }
  }

  /** The effect of a synchronous command is committed exactly when its receipt of success is. */
  lemma SynchronousEffectIffReceipt(s0: System, moves: seq<Move>, id: ToolId)
    requires Created(s0) && id in Run(s0, moves).j.tools
    requires Run(s0, moves).j.tools[id].tool.Command? && Run(s0, moves).j.tools[id].tool.synchronous
    ensures
      var s := Run(s0, moves);
      s.effects[id] == 1 <==>
          id in s.c.commands && s.c.commands[id].result.Some? && s.c.commands[id].result.value.success
  {
    RunKeepsInv(s0, moves);
    var s := Run(s0, moves);
    assert ToolOk(s, id);
    if id in s.c.commands {
      assert CommandOk(s.j.tools, s.effects, id, s.c.commands[id]);
    }
  }

  lemma EarlierReceiptStays(s: System, id: ToolId)
    requires id in s.c.commands && s.c.commands[id].result.Some?
    ensures id in OnAcceptCommand(s).c.commands && OnAcceptCommand(s).c.commands[id] == s.c.commands[id]
    ensures id in OnCommitEffect(s).c.commands && OnCommitEffect(s).c.commands[id] == s.c.commands[id]
  {
  }

  lemma StoredReceiptStays(s: System, id: ToolId, success: bool, output: nat)
    requires id in s.c.commands && s.c.commands[id].result.Some?
    ensures id in OnCommitReceipt(s, success, output).c.commands
    ensures OnCommitReceipt(s, success, output).c.commands[id] == s.c.commands[id]
  {
  }

  lemma DeliveryKeepsCommands(s: System, n: nat)
    ensures OnDeliver(s, n).c.commands == s.c.commands
  {
    if OnDeliver(s, n) != s {
      DrainKeepsCommands(s.spec, s.c.(inbox := s.c.inbox[n := s.j.events[n - 1]]));
    }
  }

  lemma ReceiptIsFinal(s: System, m: Move, id: ToolId)
    requires id in s.c.commands && s.c.commands[id].result.Some?
    ensures id in Next(s, m).c.commands && Next(s, m).c.commands[id] == s.c.commands[id]
  {
    hide ModelNext, ToolNext, LeavingNext, ControllerNext, OnDeliver, OnAcceptCommand, OnCommitEffect, OnCommitReceipt;
    if m.Deliver? {
      DeliveryKeepsCommands(s, m.sequence);
    } else if m.AcceptCommand? || m.CommitEffect? {
      EarlierReceiptStays(s, id);
    } else if m.CommitReceipt? {
      StoredReceiptStays(s, id, m.success, m.output);
    } else {
      OtherMovesKeepInbox(s, m);
    }
  }

  /** Every replay returns the receipt that was stored first, and the worker's journal records that very receipt. */
  lemma {:induction false} ReplaysReturnTheStoredReceipt(s0: System, moves: seq<Move>, more: seq<Move>, id: ToolId)
    requires Created(s0) && id in Run(s0, moves).c.commands && Run(s0, moves).c.commands[id].result.Some?
    ensures
      var s, t := Run(s0, moves), Run(s0, moves + more);
      && id in t.c.commands && t.c.commands[id] == s.c.commands[id]
      && (id in t.j.tools && t.j.tools[id].state.ToolDone? ==> t.j.tools[id].result == s.c.commands[id].result)
  {
    hide Safe, DeliveryInv, StopInv, Next;
    var all := moves + more;
    RunKeepsInv(s0, all);
    if more == [] {
      assert all == moves;
    } else {
      assert all[..|all| - 1] == moves + more[..|more| - 1];
      ReplaysReturnTheStoredReceipt(s0, moves, more[..|more| - 1], id);
      RunKeepsInv(s0, all[..|all| - 1]);
      ReceiptIsFinal(Run(s0, all[..|all| - 1]), all[|all| - 1], id);
    }
    assert CommandOk(Run(s0, all).j.tools, Run(s0, all).effects, id, Run(s0, all).c.commands[id]);
  }

  /** Executing an operation again, in any later state: the worker's own request gets the stored receipt, any other is a
      conflict, and the effect it had is the only one it has. */
  lemma RepeatedCommandReturnsItsReceipt(s0: System, moves: seq<Move>, more: seq<Move>, id: ToolId, tool: Tool,
      args: nat)
    requires Created(s0) && id in Run(s0, moves).c.commands && Run(s0, moves).c.commands[id].result.Some?
    ensures
      var s, t := Run(s0, moves), Run(s0, moves + more);
      && id in t.c.commands && id in t.j.tools
      && RepeatedCommand(t.c, t.rpc, id, tool, args) ==
         (if t.j.tools[id].tool == tool && t.j.tools[id].args == args then Stored(s.c.commands[id].result.value)
          else Denied("IDEMPOTENCY_CONFLICT"))
      && t.effects[id] == s.effects[id] <= 1
  {
    hide Safe, DeliveryInv, StopInv, Next, Run;
    ReplaysReturnTheStoredReceipt(s0, moves, more, id);
    RunKeepsInv(s0, moves);
    RunKeepsInv(s0, moves + more);
    var s, t := Run(s0, moves), Run(s0, moves + more);
    assert CommandOk(s.j.tools, s.effects, id, s.c.commands[id])
        && CommandOk(t.j.tools, t.effects, id, t.c.commands[id]);
  }

  // ---- Suspension ----

  /** Until the next start, a suspended attempt has no permit that may still be charged without a stored response; and,
      unless its journal could not be read, no started tool without a receipt. */
  lemma SuspendedLeavesNothingOpen(s0: System, moves: seq<Move>)
    requires Created(s0) && Run(s0, moves).c.launch.LaunchSuspended?
    ensures
      var s := Run(s0, moves);
      && s.w.Down? && s.rpc.NoRpc?
      && (forall p ::
          0 <= p < |s.c.ledger.permits| && BelongsTo(s.spec, s.c.ledger.permits[p])
          && Ledger.Pending(s.c.ledger.permits[p]) ==>
           s.c.ledger.permits[p].response.Some?)
      && (!s.c.blind ==>
          forall id :: id in s.j.tools && s.j.tools[id].state.ToolStarted? && !s.j.tools[id].tool.SaveArtifact? ==>
           Receipted(s.c, id, s.j.tools[id].tool))
  {
    RunKeepsInv(s0, moves);
    var s := Run(s0, moves);
    forall p | 0 <= p < |s.c.ledger.permits| ensures !OpenCall(s.spec, s.c.ledger.permits[p]) {
    }
    if !s.c.blind {
      forall id | id in s.j.tools ensures !UnfinishedTool(s.j, s.c, id) {
      }
    }
  }

  // ---- Creation ----

  /** The call a claim prepares for its first step. */
  function FirstCall(spec: Spec, t: Terms): Ledger.Call {
    Ledger.Call(Some(SourceOf(spec, 0)), Ledger.StepRequest(0, []), t.price, t.messageBytes, spec.maxOutput,
        t.goalBound, t.denied)
  }

  /** `create`: in any state of the company's money, a claim whose first permit is granted is where every run begins. */
  lemma ClaimCreates(spec: Spec, l: Ledger.State, t: Terms)
    requires spec.retries <= 1 && Ledger.Inv(l) && forall p :: 0 <= p < |l.permits| ==> !BelongsTo(spec, l.permits[p])
    requires Ledger.Prepare(l, FirstCall(spec, t)).result.Ok?
    ensures
      var o := Ledger.Prepare(l, FirstCall(spec, t));
      o.result.value.Granted? &&
      Created(System(spec, NO_ROWS, Controller(o.next, o.result.value.id, map[], LaunchReady, 0, DispatchPending, "",
          {},
          false, map[], 0, [], map[]),
                     Down, NoRpc, false, [], multiset{}))
  {
    hide Ledger.Inv, Money.ReserveMicros, Ledger.OnRefusal;
    Ledger.PrepareKeepsInv(l, FirstCall(spec, t));
    forall p | 0 <= p < |l.permits| ensures l.permits[p].source != Some(SourceOf(spec, 0)) {
      assert !BelongsTo(spec, l.permits[p]);
    }
  }

  // ---- The safety hold ----

  ghost predicate Halted(s: System, t: System) {
    t.c.grants == s.c.grants && |t.c.ledger.permits| == |s.c.ledger.permits| && t.c.ledger.safetyHold.Some?
  }

  lemma ApplyKeepsHold(spec: Spec, c: Controller, e: Event)
    requires c.ledger.safetyHold.Some? && ApplyEvent(spec, c, e).Ok?
    ensures
      var a := ApplyEvent(spec, c, e).value;
      a.grants == c.grants && |a.ledger.permits| == |c.ledger.permits| && a.ledger.safetyHold.Some?
  {
  }

  lemma {:induction false} DrainKeepsHold(spec: Spec, c: Controller)
    requires c.ledger.safetyHold.Some?
    ensures Drain(spec, c).Ok? ==>
      var d := Drain(spec, c).value;
      d.grants == c.grants && |d.ledger.permits| == |c.ledger.permits| && d.ledger.safetyHold.Some?
    decreases Buffered(c)
  {
    hide ApplyEvent;
    var n := c.lastSequence + 1;
    if n in c.inbox {
      var r := ApplyEvent(spec, c, c.inbox[n]);
      if r.Ok? {
        ApplyKeepsHold(spec, c, c.inbox[n]);
        var d := r.value.(lastSequence := n, applied := r.value.applied + [c.inbox[n]]);
        assert n in Buffered(c) && n !in Buffered(d) && Buffered(d) <= Buffered(c);
        DrainKeepsHold(spec, d);
      }
    }
  }

  lemma ControllerMovesKeepHold(s: System, m: Move)
    requires s.c.ledger.safetyHold.Some? && !ModelMove(m) && !ToolMove(m) && !LeavingMove(m)
    requires !(m.Elsewhere? && m.op.AcknowledgeOp?)
    ensures Halted(s, Next(s, m))
  {
    hide OnDeliver, OnAnswerPermit, OnElsewhere, OnRecoverRow, OnRecoverUnsent, OnRecoverFirst, OnConclude, OnStart,
        OnReady, OnRetire, OnControllerRestart, Halted, ModelNext, ToolNext, ProcessNext, LeavingNext;
    match m
    case Deliver(n) => DeliverKeepsHold(s, n);
    case AnswerPermit(t) => AnswerKeepsHold(s, t);
    case Elsewhere(op) => ElsewhereKeepsHold(s, op);
    case RecoverRow(k) => RecoveryKeepsHold(s, k, 0, Readable);
    case RecoverUnsent(k, p) => RecoveryKeepsHold(s, k, p, Readable);
    case RecoverFirst => RecoveryKeepsHold(s, 0, 0, Readable);
    case Conclude(reading) => RecoveryKeepsHold(s, 0, 0, reading);
    case Start(denied) => LaunchKeepsHold(s, denied);
    case WorkerReady(refused) => StateKeepsHold(s, refused, Blocked, "");
    case Retire(kind, why) => StateKeepsHold(s, false, kind, why);
    case ControllerRestart => LaunchKeepsHold(s, None);
  }

  lemma DeliverKeepsHold(s: System, n: nat)
    requires s.c.ledger.safetyHold.Some?
    ensures Halted(s, OnDeliver(s, n))
  {
    if OnDeliver(s, n) != s {
      DrainKeepsHold(s.spec, s.c.(inbox := s.c.inbox[n := s.j.events[n - 1]]));
    }
  }

  lemma AnswerKeepsHold(s: System, t: Terms)
    requires s.c.ledger.safetyHold.Some?
    ensures Halted(s, OnAnswerPermit(s, t))
  {
    assert IntentRefusal(s.c, t.denied).Some?;
  }

  lemma ElsewhereKeepsHold(s: System, op: Ledger.Op)
    requires s.c.ledger.safetyHold.Some? && !op.AcknowledgeOp?
    ensures Halted(s, OnElsewhere(s, op))
  {
    hide Ledger.Step;
    Ledger.HoldStopsStep(s.c.ledger, op);
  }

  lemma FailKeepsHold(l: Ledger.State)
    ensures forall p, notSent ::
        Ledger.Fail(l, p, notSent).safetyHold == l.safetyHold && |Ledger.Fail(l, p, notSent).permits| == |l.permits|
  {
  }

  lemma RecoveryKeepsHold(s: System, k: nat, p: nat, reading: Reading)
    requires s.c.ledger.safetyHold.Some?
    ensures Halted(s, OnRecoverRow(s, k)) && Halted(s, OnRecoverUnsent(s, k, p)) && Halted(s, OnRecoverFirst(s))
        && Halted(s, OnConclude(s, reading))
  {
    hide Ledger.Fail, Decide;
    FailKeepsHold(s.c.ledger);
    DecideShape(s.spec, s.j, s.c, reading);
  }

  lemma LaunchKeepsHold(s: System, denied: Option<string>)
    requires s.c.ledger.safetyHold.Some?
    ensures Halted(s, OnStart(s, denied)) && Halted(s, OnControllerRestart(s))
  {
  }

  lemma StateKeepsHold(s: System, refused: bool, kind: AttemptState, why: string)
    requires s.c.ledger.safetyHold.Some?
    ensures Halted(s, OnReady(s, refused)) && Halted(s, OnRetire(s, kind, why))
  {
  }

  /** Once a bill has exceeded its reservation no permit and no grant is created, by this worker or any other caller and
      across restarts of either side, until the owner acknowledges the overrun. */
  lemma {:induction false} HoldStopsGrants(s: System, moves: seq<Move>)
    requires s.c.ledger.safetyHold.Some?
    requires forall i :: 0 <= i < |moves| ==> !(moves[i].Elsewhere? && moves[i].op.AcknowledgeOp?)
    ensures Halted(s, Run(s, moves))
  {
    hide Next;
    if moves != [] {
      var t, m := Run(s, moves[..|moves| - 1]), moves[|moves| - 1];
      HoldStopsGrants(s, moves[..|moves| - 1]);
      if ModelMove(m) || ToolMove(m) || LeavingMove(m) {
        WorkerMovesKeepController(t, m);
      } else {
        ControllerMovesKeepHold(t, m);
      }
    }
  }
}
