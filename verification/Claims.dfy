/** Who gets a task, and how often its command is launched (company_execution_service.ts), said of the attempts and
    commands on record. */
module Claims {
  import opened Wrappers
  import opened AttemptStates
  import opened Execution
  import Deliveries

  // ---- A claim ----

  /** A command of the task that nobody has taken yet. */
  predicate Waits(s: State, task: nat, i: nat) {
    && i < |s.attempts| && s.attempts[i].task == task && s.attempts[i].state.DispatchPending? && i in s.outbox
  }

  predicate Live(a: Attempt) {
    a.state.DispatchPending? || a.state.Running? || a.state.Suspended?
  }

  /** An attempt about to start or running has its world to itself. */
  predicate Occupies(a: Attempt, world: nat) {
    a.world == world && (a.state.DispatchPending? || a.state.Running?)
  }

  /** The task waits for an attempt, and neither it nor the world is taken. */
  ghost predicate Claimable(s: State, task: nat, world: nat) {
    && task < |s.tasks| && s.tasks[task].state.Queued?
    && forall i :: 0 <= i < |s.attempts| ==>
        && !(s.attempts[i].task == task && Live(s.attempts[i]))
        && !Occupies(s.attempts[i], world)
  }

  /** One more than the highest fence of the task, or the first. */
  ghost predicate NextFenceOf(attempts: seq<Attempt>, task: nat, fence: nat) {
    && fence > 0
    && (forall i :: 0 <= i < |attempts| && attempts[i].task == task ==> attempts[i].fence < fence)
    && (fence > 1 ==> exists i :: 0 <= i < |attempts| && attempts[i].task == task && attempts[i].fence + 1 == fence)
  }

  /** A new attempt of the task, owned by this controller, and the command to start it. */
  ghost predicate Opens(s: State, t: State, task: nat, world: nat, startRound: nat, rounds: nat, goal: Option<Binding>,
      worker: bool, command: Command)
  {
    var id := |s.attempts|;
    && NextFenceOf(s.attempts, task, command.fence)
    && command == Command(id, task, world, id, command.fence, startRound, rounds, goal, worker)
    && t == s.(
        attempts := s.attempts + [Attempt(task, world, goal, id, command.fence, DispatchPending, s.owner, 0, None)],
        outbox := s.outbox[id := Outbox(command, Ready)])
  }

  lemma FenceIsNext(s: State, task: nat)
    ensures NextFenceOf(s.attempts, task, NextFence(s.attempts, task))
  {
    var latest := Latest(s.attempts, OfTask(task));
    assert forall i :: 0 <= i < |s.attempts| ==> (Matches(s.attempts[i], OfTask(task)) <==> s.attempts[i].task == task);
  }

  lemma OnlyOneWaits(s: State, task: nat, i: nat, j: nat)
    requires Inv(s) && Waits(s, task, i) && Waits(s, task, j)
    ensures i == j
  {
    hide InboxOk, Settled, RefsOk;
  }

  lemma PendingIsWaiting(s: State, task: nat)
    requires Inv(s)
    ensures forall i: nat :: FirstPending(s, task, 0) == Some(i) <==> Waits(s, task, i)
  {
    hide Inv;
    var r := FirstPending(s, task, 0);
    forall i: nat | Waits(s, task, i) ensures r == Some(i) {
      assert PendingAt(s, task, i);
      OnlyOneWaits(s, task, i, r.value);
    }
  }

  /** A claim. A command that waits is given again to the same request and to no other. Otherwise a new attempt is
      opened, exactly when the task is queued, neither it nor the world is taken and the checks around it do not object;
      it gets the next fence. A refusal changes nothing. */
  lemma ClaimSucceedsExactly(s: State, task: nat, world: nat, startRound: nat, rounds: nat, goal: Option<Binding>,
      worker: bool, adm: Admission)
    requires Inv(s)
    ensures
      var r := Claim(s, task, world, startRound, rounds, goal, worker, adm);
      && (forall i: nat :: adm.on.None? && Waits(s, task, i) ==>
            var c := s.outbox[i].command;
            var same := c.world == world && c.rounds == rounds && c.startRound == startRound && c.worker == worker
                && c.goal == goal;
            r == if same then Ok(Claimed(s, c)) else Err("OWNER_ATTEMPT_CONFLICT"))
      && (adm.on.None? && (forall i: nat :: !Waits(s, task, i)) ==>
            && (r.Ok? <==> Claimable(s, task, world) && adm.placed && adm.rounds.None? && adm.prepared.None?)
            && (r.Ok? ==> Opens(s, r.value.next, task, world, startRound, rounds, goal, worker, r.value.command)))
      && (adm.on.Some? ==> r == Err(adm.on.value))
  {
    hide Inv, FirstPending, Latest, NextFenceOf, NextFence;
    PendingIsWaiting(s, task);
    FenceIsNext(s, task);
    TakenExactly(s, task, world);
  }

  lemma TakenExactly(s: State, task: nat, world: nat)
    ensures forall a: Attempt :: a.task == task && a.world == world && a.fence == NextFence(s.attempts, task) ==>
      ((task < |s.tasks| && s.tasks[task].state.Queued? && !HasActive(s.attempts, task) && Insertable(s.attempts, a))
        <==> Claimable(s, task, world))
  {
    hide Latest, NextFence;
    FenceIsNext(s, task);
    forall a: Attempt | a.task == task && a.world == world && a.fence == NextFence(s.attempts, task)
      ensures (task < |s.tasks| && s.tasks[task].state.Queued? && !HasActive(s.attempts, task)
        && Insertable(s.attempts, a)) <==> Claimable(s, task, world)
    {
    }
  }

  // ---- A launch ----

  /** The operation takes the command of the attempt to launch it. */
  predicate Launches(s: State, op: Op, id: nat) {
    op.TakeOp? && op.id == id && TakeDispatch(s, id, op.on).Ok? && TakeDispatch(s, id, op.on).value.launch
  }

  /** A command is taken exactly while its attempt waits for it, by the controller that owns the attempt. */
  lemma LaunchesExactly(s: State, id: nat, on: Option<string>)
    ensures Launches(s, TakeOp(id, on), id) <==>
      && on.None? && id < |s.attempts| && s.attempts[id].state.DispatchPending? && s.attempts[id].lease == s.owner
      && id in s.outbox && s.outbox[id].state.Ready?
    ensures Launches(s, TakeOp(id, on), id) ==>
      Step(s, TakeOp(id, on)) == s.(outbox := s.outbox[id := s.outbox[id].(state := Launching)])
    ensures on.Some? || id >= |s.attempts| || !Launches(s, TakeOp(id, on), id) ==> Step(s, TakeOp(id, on)) == s
  {
  }

  /** In every run the command of an attempt is launched at most once, through restarts, redeliveries and repeated
      requests. */
  lemma LaunchedAtMostOnce(ops: seq<Op>, j: nat, k: nat, id: nat)
    requires j < k < |ops| && Launches(Run(INITIAL, ops[..j]), ops[j], id)
    ensures !Launches(Run(INITIAL, ops[..k]), ops[k], id)
  {
    hide Step, TakeDispatch;
    var s, t := Run(INITIAL, ops[..j]), Run(INITIAL, ops[..j + 1]);
    assert ops[..j + 1][..j] == ops[..j];
    LaunchesExactly(s, id, ops[j].on);
    RunEvolves(ops[..j + 1], ops[j + 1..k]);
    assert ops[..j + 1] + ops[j + 1..k] == ops[..k];
    if ops[k].TakeOp? { LaunchesExactly(Run(INITIAL, ops[..k]), id, ops[k].on); }
  }

  // ---- A cancelled command, an observed fact, a resumed run ----

  /** The newest attempt of a run. */
  ghost predicate NewestOf(attempts: seq<Attempt>, run: nat, id: nat) {
    && id < |attempts| && attempts[id].run == run
    && forall i :: 0 <= i < |attempts| && attempts[i].run == run ==> attempts[i].fence <= attempts[id].fence
  }

  lemma LatestIsNewest(s: State, run: nat, id: nat)
    requires Inv(s)
    ensures Latest(s.attempts, OfRun(run)) == Some(id) <==> NewestOf(s.attempts, run, id)
  {
    hide InboxOk, Settled, RefsOk;
    var r := Latest(s.attempts, OfRun(run));
    assert forall i :: 0 <= i < |s.attempts| ==> (Matches(s.attempts[i], OfRun(run)) <==> s.attempts[i].run == run);
    if NewestOf(s.attempts, run, id) {
      assert Matches(s.attempts[id], OfRun(run));
      assert s.attempts[id].task == s.attempts[r.value].task;
    }
  }

  /** Before a run has started it can be cancelled: its newest attempt is interrupted, its command withdrawn, and it is
      never launched afterwards. Nothing else is cancelled. */
  lemma CancelledIsNeverLaunched(ops: seq<Op>, run: nat, more: seq<Op>, id: nat, on: Option<string>)
    requires NewestOf(Run(INITIAL, ops).attempts, run, id)
    ensures
      var s := Run(INITIAL, ops);
      var t := Step(s, CancelOp(run));
      if s.attempts[id].state.DispatchPending?
      then
        && t.attempts == s.attempts[id := s.attempts[id].(state := Interrupted,
            reason := Some("OWNER_DISPATCH_NOT_STARTED"))]
        && t.tasks == s.tasks && t.goals == s.goals && t.inbox == s.inbox
        && t.outbox == (if id in s.outbox then s.outbox[id := s.outbox[id].(state := Cancelled)] else s.outbox)
        && !Launches(Run(INITIAL, ops + [CancelOp(run)] + more), TakeOp(id, on), id)
      else t == s
  {
    hide Inv, Latest;
    RunKeepsInv(ops);
    LatestIsNewest(Run(INITIAL, ops), run, id);
    RunEvolves(ops + [CancelOp(run)], more);
    assert (ops + [CancelOp(run)])[..|ops|] == ops;
  }

  /** A fact observed about a run. It is applied at once to the newest attempt, if that is live and belongs to this
      controller; else, and when the fact is known, nothing happens. */
  lemma ObservedIsApplied(s: State, run: nat, kind: AttemptState, reason: Option<string>, reply: Option<string>,
      fact: Option<string>, id: nat)
    requires Inv(s) && NewestOf(s.attempts, run, id) && Observe(s, run, kind, reason, reply, fact).Ok?
    ensures
      var t := Observe(s, run, kind, reason, reply, fact).value;
      var a := s.attempts[id];
      var event := if fact.Some? then Fact(fact.value) else Observed(id, kind, reason, reply);
      if Live(a) && a.lease == s.owner && (forall slot :: slot in s.inbox ==> s.inbox[slot].receipt.event != event)
      then
        && a.task < |s.tasks| && Deliveries.RunLeft(s, t, id) && Slot(id, a.lastSequence + 1) in t.inbox
        && t.inbox[Slot(id, a.lastSequence + 1)].receipt == Receipt(event, id, a.lastSequence + 1, a.fence, kind,
            if reason == Some("") then None else reason, reply)
      else t == s
  {
    hide Inv, Latest, Deliver, Deliveries.RunLeft;
    LatestIsNewest(s, run, id);
    var a := s.attempts[id];
    var event := if fact.Some? then Fact(fact.value) else Observed(id, kind, reason, reply);
    if Live(a) && a.lease == s.owner && !KnownEvent(s.inbox, event) {
      Deliveries.DeliveryLeaves(s, Receipt(event, id, a.lastSequence + 1, a.fence, kind,
          if reason == Some("") then None else reason, reply));
    }
  }

  /** Another attempt of the task came after it. */
  ghost predicate Overtaken(attempts: seq<Attempt>, id: nat)
    requires id < |attempts|
  {
    exists i :: 0 <= i < |attempts| && attempts[i].task == attempts[id].task && attempts[i].fence > attempts[id].fence
  }

  ghost predicate WorldTaken(attempts: seq<Attempt>, world: nat) {
    exists i :: 0 <= i < |attempts| && Occupies(attempts[i], world)
  }

  lemma LatestOfTask(s: State, id: nat)
    requires Inv(s) && id < |s.attempts|
    ensures Latest(s.attempts, OfTask(s.attempts[id].task)) == Some(id) <==> !Overtaken(s.attempts, id)
  {
    hide InboxOk, Settled, RefsOk;
    var task := s.attempts[id].task;
    var r := Latest(s.attempts, OfTask(task));
    assert forall i :: 0 <= i < |s.attempts| ==> (Matches(s.attempts[i], OfTask(task)) <==> s.attempts[i].task == task);
  }

  lemma MayInsertExactly(s: State, id: nat)
    requires Inv(s) && id < |s.attempts| && !Overtaken(s.attempts, id) && !Live(s.attempts[id])
    ensures Insertable(s.attempts, Resumed(s.attempts[id], s.owner)) <==> !WorldTaken(s.attempts, s.attempts[id].world)
  {
    hide InboxOk, Settled, RefsOk, Latest;
    LatestOfTask(s, id);
    forall i | 0 <= i < |s.attempts| && s.attempts[i].task == s.attempts[id].task ensures !Active(s.attempts[i].state) {
      LatestIsLast(s.attempts, s.attempts[id].task, i);
    }
  }

  lemma StartOfNew(u: State, n: nat)
    requires Inv(u) && n < |u.attempts| && u.attempts[n].state.DispatchPending? && u.attempts[n].lastSequence == 0
    requires u.attempts[n].fence > 0
    requires n !in u.outbox && (forall slot :: slot in u.inbox ==> slot.attempt != n)
    requires !Overtaken(u.attempts, n) && !Clash(u.attempts, n)
    requires !KnownEvent(u.inbox, Observed(n, Running, None, None))
    ensures
      var r := Deliver(u, Receipt(Observed(n, Running, None, None), n, 1, u.attempts[n].fence, Running, None, None));
      var a := u.attempts[n];
      && r.Ok? && a.task < |u.tasks|
      && r.value.attempts == u.attempts[n := a.(state := Running, reason := None, lastSequence := 1)]
      && r.value.tasks == u.tasks[a.task := u.tasks[a.task].(state := TaskRunning, run := Some(a.run), reason := None)]
      && r.value.goals == u.goals && r.value.outbox == u.outbox
  {
    hide Latest, Clash, Fenced;
    LatestOfTask(u, n);
    var rec := Receipt(Observed(n, Running, None, None), n, 1, u.attempts[n].fence, Running, None, None);
    var v := Post(u, rec);
    assert Waiting(v, n);
    var w := ApplyNext(v, n);
    assert ApplyContiguous(w.value, n) == Ok(w.value);
    assert Deliver(u, rec) == ApplyContiguous(v, n);
  }

  /** A run that has ended is continued by a new attempt with the next fence, started at once, exactly when no later
      attempt of its task exists and its world is free; the goal and the commands stay as they are. */
  lemma ResumedExactly(s: State, run: nat, id: nat)
    requires Inv(s) && NewestOf(s.attempts, run, id)
    requires !KnownEvent(s.inbox, Observed(|s.attempts|, Running, None, None))
    ensures
      var r, a, n := ResumeLegacyRun(s, run), s.attempts[id], |s.attempts|;
      if Live(a) then r == Ok(s)
      else if Overtaken(s.attempts, id) then r == Err("OWNER_ATTEMPT_STALE")
      else if WorldTaken(s.attempts, a.world) then r == Err("SQLITE_CONSTRAINT_UNIQUE")
      else
        && r.Ok? && a.task < |s.tasks|
        && r.value.attempts == s.attempts + [a.(fence := a.fence + 1, state := Running, lease := s.owner,
            lastSequence := 1, reason := None)]
        && r.value.tasks == s.tasks[a.task := s.tasks[a.task].(state := TaskRunning, run := Some(run), reason := None)]
        && r.value.goals == s.goals && r.value.outbox == s.outbox
  {
    hide Inv, Latest, Deliver, Insertable, WorldTaken, Overtaken;
    LatestIsNewest(s, run, id);
    LatestOfTask(s, id);
    var a, n := s.attempts[id], |s.attempts|;
    if !Live(a) && !Overtaken(s.attempts, id) {
      MayInsertExactly(s, id);
      if !WorldTaken(s.attempts, a.world) {
        InsertResumed(s, id);
        var u := s.(attempts := s.attempts + [Resumed(a, s.owner)]);
        NewIsNewest(s, id);
        LatestIsNewest(u, run, n);
        StartOfNew(u, n);
      }
    }
  }

  lemma NewIsNewest(s: State, id: nat)
    requires Inv(s) && id < |s.attempts| && NewestOf(s.attempts, s.attempts[id].run, id)
    requires !Live(s.attempts[id]) && !Overtaken(s.attempts, id) && !WorldTaken(s.attempts, s.attempts[id].world)
    requires Insertable(s.attempts, Resumed(s.attempts[id], s.owner))
    ensures
      var u, n := s.(attempts := s.attempts + [Resumed(s.attempts[id], s.owner)]), |s.attempts|;
      && NewestOf(u.attempts, s.attempts[id].run, n) && !Overtaken(u.attempts, n) && !Clash(u.attempts, n)
      && n !in u.outbox && forall slot :: slot in u.inbox ==> slot.attempt != n
  {
    hide Fenced, Settled;
  }
}
