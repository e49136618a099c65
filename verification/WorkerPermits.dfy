/** When a worker may call its model, and when it may start (company_worker_adapter.ts, owner_automation_gate.ts), said
    of the controls of the company, the money and the attempt. */
module WorkerPermits {
  import opened Wrappers
  import opened WorkerProtocol
  import opened WorkerRuns
  import opened WorkerSafety
  import opened WorkerController
  import opened WorkerTools
  import opened WorkerTheorems
  import opened WorkerResults
  import Bills
  import Ledger
  import Money

  /** Automation is on, nothing holds it, and the attempt is not over. */
  predicate Working(c: Controller) {
    && c.ledger.on && !c.ledger.maintenance && c.ledger.safetyHold.None? && !c.ledger.schedulerHold
    && (c.attempt.DispatchPending? || c.attempt.Running? || c.attempt.Suspended?)
  }

  /** The permit prepared with the claim is still pending and nothing was granted under it. */
  predicate FirstUnused(c: Controller, step: nat) {
    && step == 0 && c.firstPermit !in c.grants && c.firstPermit < |c.ledger.permits|
    && (c.ledger.permits[c.firstPermit].state.Sent? || c.ledger.permits[c.firstPermit].state.Unknown?)
  }

  /** A call of the attempt is of unknown outcome and without an answer. */
  ghost predicate Doubtful(spec: Spec, c: Controller) {
    exists p :: 0 <= p < |c.ledger.permits|
      && c.ledger.permits[p].state.Unknown? && c.ledger.permits[p].response.None?
      && c.ledger.permits[p].source.Some? && c.ledger.permits[p].source.value.kind.CompanyWorker?
      && c.ledger.permits[p].source.value.call.ModelStep?
      && c.ledger.permits[p].source.value.call.attempt == spec.attempt
  }

  /** The attempt may open another call: it has started or is about to, and none of its calls is in doubt. */
  ghost predicate MayOpen(spec: Spec, c: Controller) {
    (c.attempt.DispatchPending? || c.attempt.Running?) && !Doubtful(spec, c)
  }

  /** There is money for the call, and no permit of its step that may have been sent. */
  ghost predicate Affordable(l: Ledger.State, call: Ledger.Call) {
    && Bills.Reservable(call) && Bills.Most(call) <= Bills.Room(l) * Money.MILLION
    && Bills.Most(call) <= Money.MAX_SAFE_INTEGER * Money.MILLION
    && Bills.Admitting(l) && Bills.Free(l, call.source)
  }

  /** The call a worker asks to make. */
  function AskedCall(spec: Spec, step: nat, history: seq<nat>, t: Terms): Ledger.Call {
    Ledger.Call(Some(Ledger.Source(Ledger.ModelStep(spec.attempt, step), Ledger.CompanyWorker, Some(spec.world))),
        Ledger.StepRequest(step, history), t.price, t.messageBytes, spec.maxOutput, t.goalBound, None)
  }

  /** The permit of the step was answered before. */
  ghost predicate AnsweredBefore(spec: Spec, c: Controller, step: nat) {
    exists p :: 0 <= p < |c.ledger.permits| && c.ledger.permits[p].response.Some?
      && c.ledger.permits[p].source == Some(Ledger.Source(Ledger.ModelStep(spec.attempt, step), Ledger.CompanyWorker,
          Some(spec.world)))
  }

  lemma MayWork(c: Controller, denied: Option<string>)
    ensures IntentRefusal(c, denied).None? <==> Working(c) && denied.None?
  {
  }

  lemma MayOpenExactly(spec: Spec, c: Controller)
    ensures ScopeRefusal(spec, c).None? <==> MayOpen(spec, c)
  {
    assert forall q :: Unreviewed(spec, q) <==>
      q.state.Unknown? && q.response.None? && q.source.Some? && q.source.value.kind.CompanyWorker?
      && q.source.value.call.ModelStep? && q.source.value.call.attempt == spec.attempt;
  }

  /** What makes a permit available: the prelaunch permit, or money for a new one, or an answer that is there
      already. */
  ghost predicate Available(s: System, t: Terms)
    requires s.rpc.AskPermit?
  {
    var k := s.rpc.step;
    FirstUnused(s.c, k) || (MayOpen(s.spec, s.c)
      && (Affordable(s.c.ledger, AskedCall(s.spec, k, s.rpc.history, t)) || AnsweredBefore(s.spec, s.c, k)))
  }

  /** A permit of the present epoch is recorded and reaches the worker that waits for it. */
  ghost predicate Granted(s: System, t: System, k: nat, p: nat) {
    && p !in s.c.grants && t.c.grants == s.c.grants[p := Grant(k, s.c.epoch)]
    && (s.w == Asking(k) ==> t.w == Permitted(k, p))
  }

  lemma PreparesExactly(spec: Spec, c: Controller, k: nat, history: seq<nat>, t: Terms)
    ensures
      var o := Ledger.Prepare(c.ledger, CallFor(spec, c, k, history, t));
      && (|o.next.permits| > |c.ledger.permits| <==>
            MayOpen(spec, c) && Affordable(c.ledger, AskedCall(spec, k, history, t)))
      && (|o.next.permits| > |c.ledger.permits| ==> o.result == Ok(Ledger.Granted(|c.ledger.permits|)))
      && (|o.next.permits| <= |c.ledger.permits| && o.result.Ok? ==>
            MayOpen(spec, c) && AnsweredBefore(spec, c, k) && o.next == c.ledger)
  {
    hide Money.ReserveMicros, Bills.Most, Bills.Reservable, Bills.Admitting, Doubtful, ScopeRefusal;
    var call := CallFor(spec, c, k, history, t);
    Bills.PermitIsGrantedExactly(c.ledger, call);
    MayOpenExactly(spec, c);
    SameCall(call, AskedCall(spec, k, history, t));
  }

  lemma SameCall(a: Ledger.Call, b: Ledger.Call)
    requires b == a.(denied := b.denied)
    ensures Bills.Reservable(a) <==> Bills.Reservable(b)
    ensures Bills.Reservable(a) ==> Bills.Most(a) == Bills.Most(b)
  {
  }

  /** A worker's request for a permit. It is granted only while automation is on, nothing holds it and the attempt is
      not over, and only the prelaunch permit, one there is money for, or one already answered; and the first two are
      always granted then. A refusal changes nothing. */
  lemma PermitIsAnsweredExactly(s: System, t: Terms)
    requires Safe(s) && s.rpc.AskPermit?
    ensures
      var n, k := OnAnswerPermit(s, t), s.rpc.step;
      var granted := n.c.grants != s.c.grants;
      && (granted ==> Working(s.c) && t.denied.None? && Available(s, t) && exists p :: Granted(s, n, k, p))
      && ((&& Working(s.c) && t.denied.None? && Available(s, t)
           && (FirstUnused(s.c, k) || !AnsweredBefore(s.spec, s.c, k))) ==> granted)
      && (!granted ==> n.c == s.c && (s.w == Asking(k) ==> n.w.Idle?))
  {
    hide Ledger.Inv, Ledger.Prepare, Affordable, MayOpen, AnsweredBefore, CallInv, EventInv, AnswerInv, IntentRefusal,
        CallFor;
    var k, h := s.rpc.step, s.rpc.history;
    MayWork(s.c, t.denied);
    PreparesExactly(s.spec, s.c, k, h, t);
    if k == 0 { FirstHistory(s); }
    var a := Authorize(s.spec, s.c, k, h, t);
    if a.Ok? {
      AuthorizeGrants(s, k, h, t);
      assert Granted(s, OnAnswerPermit(s, t), k, a.value.permit);
      assert a.value.permit in OnAnswerPermit(s, t).c.grants;
    }
    FreshIsUngranted(s);
  }

  lemma FirstHistory(s: System)
    requires Safe(s) && s.rpc.AskPermit? && s.rpc.step == 0
    ensures s.rpc.history == []
  {
    assert RowOk(s.spec, s.j, s.c.grants, 0);
  }

  lemma FreshIsUngranted(s: System)
    requires Safe(s)
    ensures forall p :: p in s.c.grants ==> p < |s.c.ledger.permits|
  {
    forall p | p in s.c.grants ensures p < |s.c.ledger.permits| {
      assert GrantOk(s.spec, s.j, s.c.grants, s.c.ledger.permits, p);
    }
  }

  // ---- Start ----

  /** A worker is started exactly when its launch waits, no process and no request of it is left, automation is on and
      the attempt is not over; the start is a new epoch. */
  lemma StartsExactly(s: System, denied: Option<string>)
    ensures
      var t := OnStart(s, denied);
      if s.w.Down? && s.rpc.NoRpc? && (s.c.launch.LaunchReady? || s.c.launch.LaunchSuspended?)
          && Working(s.c) && denied.None?
      then t == s.(c := s.c.(launch := Starting, epoch := s.c.epoch + 1), w := Booting, connected := true)
      else t == s
  {
    MayWork(s.c, denied);
  }

  /** In every run a grant is made only while automation is on, nothing holds it, the attempt is not over and its worker
      has asked; it is one grant, of the present epoch. */
  lemma GrantsAreAskedFor(s0: System, moves: seq<Move>, m: Move)
    requires Created(s0) && Next(Run(s0, moves), m).c.grants != Run(s0, moves).c.grants
    ensures
      var s, t := Run(s0, moves), Next(Run(s0, moves), m);
      && m.AnswerPermit? && s.rpc.AskPermit? && Working(s.c) && m.terms.denied.None? && Available(s, m.terms)
      && exists p :: Granted(s, t, s.rpc.step, p)
  {
    hide Run, Next, OnAnswerPermit, Working, Available, Granted, Inv;
    RunKeepsInv(s0, moves);
    var s := Run(s0, moves);
    SafeOfInv(s);
    OnlyAnswersGrant(s, m);
    PermitIsAnsweredExactly(s, m.terms);
  }

  lemma SafeOfInv(s: System)
    requires Inv(s)
    ensures Safe(s) && DeliveryInv(s)
  {
    hide Safe, DeliveryInv, ToolInv, StopInv;
  }

  lemma OnlyAnswersGrant(s: System, m: Move)
    requires Safe(s) && DeliveryInv(s) && Next(s, m).c.grants != s.c.grants
    ensures m.AnswerPermit? && s.rpc.AskPermit? && Next(s, m) == OnAnswerPermit(s, m.terms)
  {
    hide ModelNext, ToolNext, ProcessNext, LeavingNext, Ledger.Inv, MoneyInv, DeliveryInv, OnDeliver, Decide, Authorize,
        Ledger.Step, Ledger.Fail, Ledger.Restart, MayRecover, Unmarked;
    if ModelMove(m) || ToolMove(m) || LeavingMove(m) {
      WorkerMovesKeepController(s, m);
    } else if m.Deliver? {
      DeliverKeepsGrants(s, m.sequence);
    } else if m.Conclude? {
      DecideShape(s.spec, s.j, s.c, m.reading);
    }
  }

  lemma DeliverKeepsGrants(s: System, n: nat)
    requires Safe(s) && DeliveryInv(s)
    ensures OnDeliver(s, n).c.grants == s.c.grants
  {
    hide Ledger.Inv, MoneyInv, Ledger.Evolves;
    if OnDeliver(s, n) != s {
      InboxFrame(s, Posted(s, n));
      DrainEvolves(Posted(s, n));
    }
  }
}
