/**
 * Claims, fences and receipts of execution attempts (company_execution_service.ts).
 *
 * An attempt's identifier is its position in the table. A refused operation is a rolled-back transaction. Times and
 * the accounting state, which is recomputed from the permits, are left out.
 */
module Execution {
  import opened Wrappers
  import opened AttemptStates

  // ---- Rows ----

  datatype Attempt = Attempt(
    task: nat,
    world: nat,
    goal: Option<Binding>,
    run: nat,
    fence: nat,
    state: AttemptState,
    lease: nat,
    lastSequence: nat,
    reason: Option<string>)

  datatype Binding = Binding(goal: nat, revision: nat, dispatch: nat)

  datatype TaskState = Queued | TaskRunning | Replied | TaskFailed | TaskBlocked

  datatype Task = Task(state: TaskState, run: Option<nat>, reply: Option<string>, reason: Option<string>)

  datatype GoalStatus = GoalReady | GoalRunning | GoalBlocked | GoalOther

  datatype Goal = Goal(status: GoalStatus, revision: nat, reason: Option<string>)

  datatype Outbox = Outbox(command: Command, state: OutboxState)

  datatype OutboxState = Ready | Launching | Delivered | Cancelled

  datatype Command = Command(attempt: nat, task: nat, world: nat, run: nat, fence: nat, startRound: nat, rounds: nat,
                             goal: Option<Binding>, worker: bool)

  /** A durable identity chosen by the source of a fact, or the injective hash of what was observed. */
  datatype EventId = Fact(name: string)
      | Observed(attempt: nat, kind: AttemptState, reason: Option<string>, reply: Option<string>)

  /** `kind` is the state a receipt reports: `Running` for a start. */
  datatype Receipt = Receipt(event: EventId, attempt: nat, sequence: nat, fence: nat, kind: AttemptState,
                             reason: Option<string>, reply: Option<string>)

  datatype Slot = Slot(attempt: nat, sequence: nat)

  datatype InboxRow = InboxRow(receipt: Receipt, applied: bool)

  type Inbox = map<Slot, InboxRow>

  /** `owner` names the running controller process. */
  datatype State = State(
    attempts: seq<Attempt>,
    tasks: seq<Task>,
    goals: map<nat, Goal>,
    outbox: map<nat, Outbox>,
    inbox: Inbox,
    owner: nat)

  // ---- Selections ----

  datatype Key = OfTask(task: nat) | OfRun(run: nat)

  predicate Matches(a: Attempt, key: Key) {
    match key
    case OfTask(task) => a.task == task
    case OfRun(run) => a.run == run
  }

  /** `ORDER BY fence DESC LIMIT 1`. */
  function Latest(attempts: seq<Attempt>, key: Key): (r: Option<nat>)
    ensures r.None? ==> forall i :: 0 <= i < |attempts| ==> !Matches(attempts[i], key)
    ensures r.Some? ==> r.value < |attempts| && Matches(attempts[r.value], key)
                        && forall i :: 0 <= i < |attempts| && Matches(attempts[i], key) ==>
                            attempts[i].fence <= attempts[r.value].fence
  {
    if attempts == [] then None
    else
      var n := |attempts| - 1;
      var r := Latest(attempts[..n], key);
      if Matches(attempts[n], key) && (r.None? || attempts[n].fence > attempts[r.value].fence) then Some(n) else r
  }

  /** The states in which an attempt occupies its world. */
  predicate Holding(a: Attempt) {
    a.state.DispatchPending? || a.state.Running?
  }

  /** The unique indexes refuse a second holder of a world or task. */
  predicate Clash(attempts: seq<Attempt>, id: nat)
    requires id < |attempts|
  {
    exists i ::
        0 <= i < |attempts| && i != id && Holding(attempts[i])
        && (attempts[i].world == attempts[id].world || attempts[i].task == attempts[id].task)
  }

  // ---- Applying receipts ----

  predicate ValidReceipt(r: Receipt) {
    && (r.event.Fact? ==> 0 < |r.event.name| <= 200)
    && r.sequence > 0 && r.fence > 0 && !r.kind.DispatchPending?
    && (r.reason.Some? ==> |r.reason.value| <= 2000) && (r.reply.Some? ==> |r.reply.value| <= 200_000)
  }

  function TaskStateFor(kind: AttemptState): TaskState {
    match kind
    case Running => TaskRunning
    case Completed => Replied
    case Failed => TaskFailed
    case _ => TaskBlocked
  }

  /** A goal still working on the specification of the attempt is blocked by anything but a start or a success. */
  function BlockGoal(goals: map<nat, Goal>, binding: Option<Binding>, kind: AttemptState,
      reason: Option<string>): map<nat, Goal> {
    if binding.None? || kind.Running? || kind.Completed? || binding.value.goal !in goals then goals
    else
      var g := goals[binding.value.goal];
      if g.revision == binding.value.revision && (g.status.GoalReady? || g.status.GoalRunning?)
      then goals[binding.value.goal := g.(status := GoalBlocked,
          reason := Some(if reason.Some? then reason.value else "OWNER_EXECUTION_INTERRUPTED"))]
      else goals
  }

  /** The rows one receipt writes, apart from its own. */
  function ApplyRows(s: State, id: nat, r: Receipt): Result<State>
    requires id < |s.attempts|
  {
    var a := s.attempts[id];
    if !Active(a.state) then Err("OWNER_ATTEMPT_TERMINAL")
    else if r.kind.Running? && Clash(s.attempts, id) then Err("SQLITE_CONSTRAINT_UNIQUE")
    else
      Ok(s.(attempts := s.attempts[id := a.(state := r.kind, reason := r.reason, lastSequence := r.sequence)],
            tasks := if a.task < |s.tasks| then
                       s.tasks[a.task := Task(TaskStateFor(r.kind), Some(a.run), if r.reply.Some? then r.reply
                           else s.tasks[a.task].reply, r.reason)]
                     else s.tasks,
            outbox := if id in s.outbox then s.outbox[id := s.outbox[id].(state := Delivered)] else s.outbox,
            goals := BlockGoal(s.goals, a.goal, r.kind, r.reason)))
  }

  function NextSlot(s: State, id: nat): Slot
    requires id < |s.attempts|
  {
    Slot(id, s.attempts[id].lastSequence + 1)
  }

  predicate Waiting(s: State, id: nat)
    requires id < |s.attempts|
  {
    NextSlot(s, id) in s.inbox && !s.inbox[NextSlot(s, id)].applied
  }

  function Unapplied(inbox: Inbox): set<Slot> {
    set slot | slot in inbox && !inbox[slot].applied
  }

  function ApplyNext(s: State, id: nat): (r: Result<State>)
    requires id < |s.attempts| && Waiting(s, id)
    ensures r.Ok? ==> |r.value.attempts| == |s.attempts| && Unapplied(r.value.inbox) < Unapplied(s.inbox)
  {
    var slot := NextSlot(s, id);
    var r := ApplyRows(s, id, s.inbox[slot].receipt);
    if r.Err? then r
    else
      var t := r.value.(inbox := s.inbox[slot := s.inbox[slot].(applied := true)]);
      assert slot in Unapplied(s.inbox) && slot !in Unapplied(t.inbox) && Unapplied(t.inbox) <= Unapplied(s.inbox);
      Ok(t)
  }

  /** Applies buffered receipts while the next one is there. */
  function ApplyContiguous(s: State, id: nat): (r: Result<State>)
    requires id < |s.attempts|
    decreases Unapplied(s.inbox)
  {
    if !Waiting(s, id) then Ok(s)
    else
      var r := ApplyNext(s, id);
      if r.Err? then r else ApplyContiguous(r.value, id)
  }

  predicate KnownEvent(inbox: Inbox, event: EventId) {
    exists slot :: slot in inbox && inbox[slot].receipt.event == event
  }

  predicate KnownReceipt(inbox: Inbox, r: Receipt) {
    exists slot :: slot in inbox && inbox[slot].receipt == r
  }

  function Deliver(s: State, r: Receipt): Result<State> {
    if !ValidReceipt(r) then Err("OWNER_RECEIPT_INVALID")
    else if r.attempt >= |s.attempts| then Err("OWNER_ATTEMPT_NOT_FOUND")
    else if KnownEvent(s.inbox, r.event) then if KnownReceipt(s.inbox, r) then Ok(s) else Err("OWNER_RECEIPT_CONFLICT")
    else
      var a := s.attempts[r.attempt];
      if a.fence != r.fence || Latest(s.attempts, OfTask(a.task)) != Some(r.attempt) then Err("OWNER_ATTEMPT_STALE")
      else if Slot(r.attempt, r.sequence) in s.inbox || r.sequence <= a.lastSequence then Err("OWNER_RECEIPT_CONFLICT")
      else ApplyContiguous(Post(s, r), r.attempt)
  }

  function Post(s: State, r: Receipt): State {
    s.(inbox := s.inbox[Slot(r.attempt, r.sequence) := InboxRow(r, false)])
  }

  // ---- The other operations ----

  /** What the checks outside this service answer: automation on, the person's world, the run's rounds, the worker's
      preparation. */
  datatype Admission = Admission(on: Option<string>, placed: bool, rounds: Option<string>, prepared: Option<string>)

  predicate PendingAt(s: State, task: nat, i: nat)
    requires i < |s.attempts|
  {
    s.attempts[i].task == task && s.attempts[i].state.DispatchPending? && i in s.outbox
  }

  function FirstPending(s: State, task: nat, from: nat): (r: Option<nat>)
    ensures r.Some? ==> r.value < |s.attempts| && PendingAt(s, task, r.value)
    ensures r.None? ==> forall i :: from <= i < |s.attempts| ==> !PendingAt(s, task, i)
    decreases |s.attempts| - from
  {
    if from >= |s.attempts| then None
    else if PendingAt(s, task, from) then Some(from)
    else FirstPending(s, task, from + 1)
  }

  predicate HasActive(attempts: seq<Attempt>, task: nat) {
    exists i :: 0 <= i < |attempts| && attempts[i].task == task && Active(attempts[i].state)
  }

  function NextFence(attempts: seq<Attempt>, task: nat): nat {
    var latest := Latest(attempts, OfTask(task));
    if latest.Some? then attempts[latest.value].fence + 1 else 1
  }

  /** The table constraints on a new row. */
  predicate Insertable(attempts: seq<Attempt>, a: Attempt) {
    forall i :: 0 <= i < |attempts| ==>
      && !(Holding(attempts[i]) && attempts[i].world == a.world)
      && !(Active(attempts[i].state) && attempts[i].task == a.task)
      && !(attempts[i].task == a.task && attempts[i].fence == a.fence)
  }

  datatype Claimed = Claimed(next: State, command: Command)

  function Claim(s: State, task: nat, world: nat, startRound: nat, rounds: nat, goal: Option<Binding>, worker: bool,
      adm: Admission): Result<Claimed> {
    var pending := FirstPending(s, task, 0);
    if adm.on.Some? then Err(adm.on.value)
    else if pending.Some? then
      var c := s.outbox[pending.value].command;
      if c.world != world || c.rounds != rounds || c.startRound != startRound || c.worker != worker || c.goal != goal
      then Err("OWNER_ATTEMPT_CONFLICT") else Ok(Claimed(s, c))
    else if task >= |s.tasks| || !s.tasks[task].state.Queued? || HasActive(s.attempts, task)
        then Err("OWNER_ATTEMPT_ALREADY_CLAIMED")
    else if !adm.placed then Err("OWNER_ATTEMPT_CONFLICT")
    else if adm.rounds.Some? then Err(adm.rounds.value)
    else
      var id := |s.attempts|;
      var a := Attempt(task, world, goal, id, NextFence(s.attempts, task), DispatchPending, s.owner, 0, None);
      var c := Command(id, task, world, id, a.fence, startRound, rounds, goal, worker);
      if !Insertable(s.attempts, a) then Err("SQLITE_CONSTRAINT_UNIQUE")
      else if adm.prepared.Some? then Err(adm.prepared.value)
      else Ok(Claimed(s.(attempts := s.attempts + [a], outbox := s.outbox[id := Outbox(c, Ready)]), c))
  }

  datatype Taken = Taken(next: State, launch: bool)

  function TakeDispatch(s: State, id: nat, on: Option<string>): Result<Taken> {
    if on.Some? then Err(on.value)
    else if id >= |s.attempts| then Err("OWNER_ATTEMPT_NOT_FOUND")
    else if !s.attempts[id].state.DispatchPending? || s.attempts[id].lease != s.owner then Err("OWNER_ATTEMPT_STALE")
    else if id in s.outbox && s.outbox[id].state.Ready? then
      Ok(Taken(s.(outbox := s.outbox[id := s.outbox[id].(state := Launching)]), true))
    else Ok(Taken(s, false))
  }

  function CancelPrepared(s: State, run: nat): State {
    var r := Latest(s.attempts, OfRun(run));
    if r.None? || !s.attempts[r.value].state.DispatchPending? then s
    else
      s.(attempts := s.attempts[r.value := s.attempts[r.value].(state := Interrupted,
          reason := Some("OWNER_DISPATCH_NOT_STARTED"))],
         outbox := if r.value in s.outbox then s.outbox[r.value := s.outbox[r.value].(state := Cancelled)]
         else s.outbox)
  }

  /** A fact already in the inbox is delivered again as it was, which changes nothing. */
  function Observe(s: State, run: nat, kind: AttemptState, reason: Option<string>, reply: Option<string>,
      fact: Option<string>): Result<State> {
    var r := Latest(s.attempts, OfRun(run));
    if r.None? || !Active(s.attempts[r.value].state) || s.attempts[r.value].lease != s.owner then Ok(s)
    else
      var a := s.attempts[r.value];
      var event := if fact.Some? then Fact(fact.value) else Observed(r.value, kind, reason, reply);
      if KnownEvent(s.inbox, event) then Ok(s)
      else Deliver(s, Receipt(event, r.value, a.lastSequence + 1, a.fence, kind, if reason == Some("") then None
          else reason, reply))
  }

  function AdoptAfterExit(s: State, run: nat): State {
    var r := Latest(s.attempts, OfRun(run));
    if r.None? || !Active(s.attempts[r.value].state) || s.attempts[r.value].lease == s.owner then s
    else s.(attempts := s.attempts[r.value := s.attempts[r.value].(lease := s.owner)])
  }

  /** The fresh attempt that continues a run. */
  function Resumed(a: Attempt, owner: nat): Attempt {
    a.(fence := a.fence + 1, state := DispatchPending, lease := owner, lastSequence := 0, reason := None)
  }

  function ResumeLegacyRun(s: State, run: nat): Result<State> {
    var r := Latest(s.attempts, OfRun(run));
    if r.None? || Active(s.attempts[r.value].state) then Ok(s)
    else
      var prior := s.attempts[r.value];
      var a := Resumed(prior, s.owner);
      if Latest(s.attempts, OfTask(prior.task)) != r then Err("OWNER_ATTEMPT_STALE")
      else if !Insertable(s.attempts, a) then Err("SQLITE_CONSTRAINT_UNIQUE")
      else Observe(s.(attempts := s.attempts + [a]), run, Running, None, None, None)
  }

  // ---- Runs ----

  datatype Op =
    | AddTask
    | Requeue(task: nat)
    | ClaimOp(task: nat, world: nat, startRound: nat, rounds: nat, goal: Option<Binding>, worker: bool, adm: Admission)
    | TakeOp(id: nat, on: Option<string>)
    | CancelOp(run: nat)
    | DeliverOp(receipt: Receipt)
    | ObserveOp(run: nat, kind: AttemptState, reason: Option<string>, reply: Option<string>, fact: Option<string>)
    | AdoptOp(run: nat)
    | ResumeOp(run: nat)
    | RestartOp
    | GoalOp(id: nat, row: Goal)

  function OrElse(r: Result<State>, s: State): State {
    if r.Ok? then r.value else s
  }

  function Step(s: State, op: Op): State {
    match op
    case AddTask => s.(tasks := s.tasks + [Task(Queued, None, None, None)])
    case Requeue(task) =>
      if task < |s.tasks| && !HasActive(s.attempts, task)
          then s.(tasks := s.tasks[task := s.tasks[task].(state := Queued, run := None)]) else s
    case ClaimOp(task, world, startRound, rounds, goal, worker, adm) =>
      var c := Claim(s, task, world, startRound, rounds, goal, worker, adm);
      if c.Ok? then c.value.next else s
    case TakeOp(id, on) => if TakeDispatch(s, id, on).Ok? then TakeDispatch(s, id, on).value.next else s
    case CancelOp(run) => CancelPrepared(s, run)
    case DeliverOp(r) => OrElse(Deliver(s, r), s)
    case ObserveOp(run, kind, reason, reply, fact) => OrElse(Observe(s, run, kind, reason, reply, fact), s)
    case AdoptOp(run) => AdoptAfterExit(s, run)
    case ResumeOp(run) => OrElse(ResumeLegacyRun(s, run), s)
    case RestartOp => s.(owner := s.owner + 1)
    case GoalOp(id, row) => s.(goals := s.goals[id := row])
  }

  function Run(s: State, ops: seq<Op>): State {
    if ops == [] then s else Step(Run(s, ops[..|ops| - 1]), ops[|ops| - 1])
  }

  const INITIAL := State([], [], map[], map[], map[], 0)

  // ---- What every step keeps ----

  /** Of the attempts of one task the fences increase and only the newest may be active; one world has one holder. */
  ghost predicate Fenced(attempts: seq<Attempt>) {
    && (forall i, j :: 0 <= i < j < |attempts| && attempts[i].task == attempts[j].task ==>
        attempts[i].fence < attempts[j].fence && !Active(attempts[i].state))
    && (forall i, j :: 0 <= i < j < |attempts| && Holding(attempts[i]) && Holding(attempts[j]) ==>
        attempts[i].world != attempts[j].world)
    && (forall i, j :: 0 <= i < j < |attempts| && attempts[i].run == attempts[j].run ==>
        attempts[i].task == attempts[j].task)
  }

  ghost predicate InboxOk(s: State) {
    && (forall slot :: slot in s.inbox ==>
          && slot.attempt < |s.attempts| && slot.sequence > 0
          && s.inbox[slot].receipt.attempt == slot.attempt && s.inbox[slot].receipt.sequence == slot.sequence
          && ValidReceipt(s.inbox[slot].receipt)
          && (s.inbox[slot].applied <==> slot.sequence <= s.attempts[slot.attempt].lastSequence))
    && (forall x, y :: x in s.inbox && y in s.inbox && s.inbox[x].receipt.event == s.inbox[y].receipt.event ==> x == y)
  }

  /** Between operations nothing that could be applied is waiting. */
  ghost predicate Settled(s: State) {
    forall i :: 0 <= i < |s.attempts| ==> NextSlot(s, i) !in s.inbox
  }

  ghost predicate RefsOk(s: State) {
    && (forall i :: 0 <= i < |s.attempts| ==> s.attempts[i].task < |s.tasks| && s.attempts[i].run <= i)
    && (forall id :: id in s.outbox ==> id < |s.attempts| && s.outbox[id].command.attempt == id)
  }

  ghost predicate Inv(s: State) {
    Fenced(s.attempts) && InboxOk(s) && Settled(s) && RefsOk(s)
  }

  /** An attempt keeps its identity, its applied receipts only grow, and its terminal states are final. */
  ghost predicate AttemptEvolves(a: Attempt, b: Attempt) {
    && b.task == a.task && b.world == a.world && b.goal == a.goal && b.run == a.run && b.fence == a.fence
    && a.lastSequence <= b.lastSequence
    && (!Active(a.state) ==> b == a)
  }

  ghost predicate Evolves(s: State, t: State) {
    && |s.attempts| <= |t.attempts|
    && (forall i :: 0 <= i < |s.attempts| ==> AttemptEvolves(s.attempts[i], t.attempts[i]))
    && (forall id :: id in s.outbox ==>
        id in t.outbox && t.outbox[id].command == s.outbox[id].command
        && (!s.outbox[id].state.Ready? ==> !t.outbox[id].state.Ready?))
    && (forall slot :: slot in s.inbox ==> slot in t.inbox && t.inbox[slot].receipt == s.inbox[slot].receipt)
  }

  lemma EvolvesTransitive(a: State, b: State, c: State)
    requires Evolves(a, b) && Evolves(b, c)
    ensures Evolves(a, c)
  {
    forall i | 0 <= i < |a.attempts| ensures AttemptEvolves(a.attempts[i], c.attempts[i]) {
      assert AttemptEvolves(a.attempts[i], b.attempts[i]) && AttemptEvolves(b.attempts[i], c.attempts[i]);
    }
  }

  /** In a fenced table the attempt with the highest fence of a task is the last one. */
  lemma LatestIsLast(attempts: seq<Attempt>, task: nat, i: nat)
    requires Fenced(attempts) && i < |attempts| && attempts[i].task == task
    ensures Latest(attempts, OfTask(task)).Some? && i <= Latest(attempts, OfTask(task)).value
    ensures Active(attempts[i].state) ==> Latest(attempts, OfTask(task)) == Some(i)
  {
    var l := Latest(attempts, OfTask(task)).value;
    assert Matches(attempts[i], OfTask(task));
    assert attempts[i].fence <= attempts[l].fence;
  }

  /** One attempt's row changes without giving up its identity; it may become active only if it was, and a holder only
      if no other is. */
  lemma AttemptChangeKeepsFences(attempts: seq<Attempt>, id: nat, b: Attempt)
    requires Fenced(attempts) && id < |attempts|
    requires var a := attempts[id]; b.task == a.task && b.world == a.world && b.run == a.run && b.fence == a.fence
    requires Active(b.state) ==> Active(attempts[id].state)
    requires Holding(b) ==> Holding(attempts[id]) || !Clash(attempts, id)
    ensures Fenced(attempts[id := b])
  {
  }

  /** The part of the invariant that also holds between two receipts of one delivery. */
  ghost predicate Applying(s: State, id: nat) {
    && Fenced(s.attempts) && InboxOk(s) && id < |s.attempts|
    && (forall i :: 0 <= i < |s.attempts| && i != id ==> NextSlot(s, i) !in s.inbox)
    && RefsOk(s)
  }

  lemma ApplyNextKeepsInbox(s: State, id: nat)
    requires Applying(s, id) && Waiting(s, id) && ApplyNext(s, id).Ok?
    ensures InboxOk(ApplyNext(s, id).value)
  {
    hide Fenced, RefsOk;
    var t, slot := ApplyNext(s, id).value, NextSlot(s, id);
    forall x | x in t.inbox ensures t.inbox[x].applied <==> x.sequence <= t.attempts[x.attempt].lastSequence {
      if x.attempt == id && x.sequence == s.attempts[id].lastSequence + 1 {
        assert x == slot;
      }
    }
  }

  lemma ApplyNextShape(s: State, id: nat)
    requires id < |s.attempts| && Waiting(s, id) && ApplyNext(s, id).Ok?
    ensures
      var t, a := ApplyNext(s, id).value, s.attempts[id];
      && Active(a.state) && |t.attempts| == |s.attempts| && |t.tasks| == |s.tasks| && t.owner == s.owner
      && t.attempts == s.attempts[id := t.attempts[id]] && t.inbox.Keys == s.inbox.Keys
      && t.attempts[id] == a.(state := t.attempts[id].state, reason := t.attempts[id].reason,
          lastSequence := t.attempts[id].lastSequence)
      && t.attempts[id].state == s.inbox[NextSlot(s, id)].receipt.kind
          && t.attempts[id].lastSequence == s.inbox[NextSlot(s, id)].receipt.sequence
      && (Holding(t.attempts[id]) ==> !Clash(s.attempts, id) || t.attempts[id].state.DispatchPending?)
      && (forall slot :: slot in s.inbox ==> t.inbox[slot].receipt == s.inbox[slot].receipt)
      && t.outbox.Keys == s.outbox.Keys
      && (forall k :: k in s.outbox ==>
          t.outbox[k].command == s.outbox[k].command && (t.outbox[k] == s.outbox[k] || t.outbox[k].state.Delivered?))
  {
  }

  lemma ApplyNextKeepsFences(s: State, id: nat)
    requires Applying(s, id) && Waiting(s, id) && ApplyNext(s, id).Ok?
    ensures Fenced(ApplyNext(s, id).value.attempts)
  {
    hide Fenced, RefsOk, ApplyNext, Clash;
    ApplyNextShape(s, id);
    assert ValidReceipt(s.inbox[NextSlot(s, id)].receipt);
    AttemptChangeKeepsFences(s.attempts, id, ApplyNext(s, id).value.attempts[id]);
  }

  lemma ApplyNextEvolves(s: State, id: nat)
    requires Applying(s, id) && Waiting(s, id) && ApplyNext(s, id).Ok?
    ensures Evolves(s, ApplyNext(s, id).value) && RefsOk(ApplyNext(s, id).value)
  {
    hide Fenced, ApplyNext, Clash;
    ApplyNextShape(s, id);
    assert s.inbox[NextSlot(s, id)].receipt.sequence == s.attempts[id].lastSequence + 1;
  }

  lemma ApplyNextKeeps(s: State, id: nat)
    requires Applying(s, id) && Waiting(s, id) && ApplyNext(s, id).Ok?
    ensures Applying(ApplyNext(s, id).value, id) && Evolves(s, ApplyNext(s, id).value)
  {
    var t := ApplyNext(s, id).value;
    hide ApplyNext, Fenced, InboxOk, RefsOk, Evolves, Clash;
    ApplyNextShape(s, id);
    ApplyNextKeepsInbox(s, id);
    ApplyNextKeepsFences(s, id);
    ApplyNextEvolves(s, id);
    assert forall i :: 0 <= i < |s.attempts| && i != id ==> NextSlot(t, i) == NextSlot(s, i);
  }

  lemma {:induction false} ApplyContiguousKeeps(s: State, id: nat)
    requires Applying(s, id) && ApplyContiguous(s, id).Ok?
    ensures Inv(ApplyContiguous(s, id).value) && Evolves(s, ApplyContiguous(s, id).value)
    decreases Unapplied(s.inbox)
  {
    if Waiting(s, id) {
      var t := ApplyNext(s, id).value;
      ApplyNextKeeps(s, id);
      ApplyContiguousKeeps(t, id);
      EvolvesTransitive(s, t, ApplyContiguous(t, id).value);
    }
  }

  lemma PostKeepsInbox(s: State, r: Receipt)
    requires InboxOk(s) && ValidReceipt(r) && r.attempt < |s.attempts| && !KnownEvent(s.inbox, r.event)
    requires Slot(r.attempt, r.sequence) !in s.inbox && r.sequence > s.attempts[r.attempt].lastSequence
    ensures InboxOk(Post(s, r))
  {
  }

  lemma PostKeeps(s: State, r: Receipt)
    requires Inv(s) && ValidReceipt(r) && r.attempt < |s.attempts| && !KnownEvent(s.inbox, r.event)
    requires Slot(r.attempt, r.sequence) !in s.inbox && r.sequence > s.attempts[r.attempt].lastSequence
    ensures Applying(Post(s, r), r.attempt) && Evolves(s, Post(s, r))
  {
    hide Fenced, KnownEvent, ValidReceipt, InboxOk;
    var t := Post(s, r);
    PostKeepsInbox(s, r);
    forall i | 0 <= i < |t.attempts| && i != r.attempt ensures NextSlot(t, i) !in t.inbox {
      assert NextSlot(s, i) !in s.inbox;
    }
    assert Evolves(s, t);
  }

  lemma DeliverKeeps(s: State, r: Receipt)
    requires Inv(s) && Deliver(s, r).Ok?
    ensures Inv(Deliver(s, r).value) && Evolves(s, Deliver(s, r).value)
  {
    if !KnownEvent(s.inbox, r.event) {
      hide Inv, Evolves, Applying;
      PostKeeps(s, r);
      ApplyContiguousKeeps(Post(s, r), r.attempt);
      EvolvesTransitive(s, Post(s, r), Deliver(s, r).value);
    }
  }

  lemma InsertKeepsFences(attempts: seq<Attempt>, a: Attempt)
    requires Fenced(attempts) && Insertable(attempts, a)
    requires forall i :: 0 <= i < |attempts| && attempts[i].task == a.task ==> attempts[i].fence < a.fence
    requires forall i :: 0 <= i < |attempts| && attempts[i].run == a.run ==> attempts[i].task == a.task
    ensures Fenced(attempts + [a])
  {
  }

  lemma InsertKeeps(s: State, a: Attempt)
    requires Inv(s) && Insertable(s.attempts, a) && a.task < |s.tasks| && a.run <= |s.attempts| && a.lastSequence == 0
    requires forall i :: 0 <= i < |s.attempts| && s.attempts[i].task == a.task ==> s.attempts[i].fence < a.fence
    requires forall i :: 0 <= i < |s.attempts| && s.attempts[i].run == a.run ==> s.attempts[i].task == a.task
    ensures Inv(s.(attempts := s.attempts + [a])) && Evolves(s, s.(attempts := s.attempts + [a]))
  {
    var t := s.(attempts := s.attempts + [a]);
    InsertKeepsFences(s.attempts, a);
    forall i | 0 <= i < |t.attempts| ensures NextSlot(t, i) !in t.inbox {
      if i < |s.attempts| { assert NextSlot(s, i) == NextSlot(t, i); }
    }
  }

  /** A command is stored once for its attempt, and its state moves on from `Ready` for good. */
  lemma OutboxFrame(s: State, outbox: map<nat, Outbox>)
    requires Inv(s)
    requires forall id :: id in outbox ==> id < |s.attempts| && outbox[id].command.attempt == id
    requires forall id :: id in s.outbox ==>
        id in outbox && outbox[id].command == s.outbox[id].command
        && (!s.outbox[id].state.Ready? ==> !outbox[id].state.Ready?)
    ensures Inv(s.(outbox := outbox)) && Evolves(s, s.(outbox := outbox))
  {
    var t := s.(outbox := outbox);
    assert forall i :: 0 <= i < |s.attempts| ==>
        NextSlot(t, i) == NextSlot(s, i) && AttemptEvolves(s.attempts[i], t.attempts[i]);
  }

  /** A new claim appends one row, with a fence above those of its task, and its command. */
  lemma ClaimInserts(s: State, task: nat, world: nat, startRound: nat, rounds: nat, goal: Option<Binding>, worker: bool,
      adm: Admission) returns (a: Attempt)
    requires Inv(s) && Claim(s, task, world, startRound, rounds, goal, worker, adm).Ok?
    requires Claim(s, task, world, startRound, rounds, goal, worker, adm).value.next != s
    ensures
      var t := Claim(s, task, world, startRound, rounds, goal, worker, adm).value.next;
      && t == s.(attempts := s.attempts + [a], outbox := t.outbox)
      && Insertable(s.attempts, a) && a.task < |s.tasks| && a.run == |s.attempts| && a.lastSequence == 0
      && (forall i :: 0 <= i < |s.attempts| && s.attempts[i].task == a.task ==> s.attempts[i].fence < a.fence)
      && (forall i :: 0 <= i < |s.attempts| ==> s.attempts[i].run != a.run)
      && (forall id :: id in t.outbox ==> id <= |s.attempts| && t.outbox[id].command.attempt == id)
      && (forall id :: id in s.outbox ==> id in t.outbox && t.outbox[id] == s.outbox[id])
  {
    hide Fenced, InboxOk, Settled;
    a := Claim(s, task, world, startRound, rounds, goal, worker, adm).value.next.attempts[|s.attempts|];
    forall i | 0 <= i < |s.attempts| && s.attempts[i].task == a.task ensures s.attempts[i].fence < a.fence {
      assert Matches(s.attempts[i], OfTask(task));
    }
  }

  lemma ClaimKeeps(s: State, task: nat, world: nat, startRound: nat, rounds: nat, goal: Option<Binding>, worker: bool,
      adm: Admission)
    requires Inv(s) && Claim(s, task, world, startRound, rounds, goal, worker, adm).Ok?
    ensures
      var t := Claim(s, task, world, startRound, rounds, goal, worker, adm).value.next;
      Inv(t) && Evolves(s, t)
  {
    var t := Claim(s, task, world, startRound, rounds, goal, worker, adm).value.next;
    if t != s {
      var a := ClaimInserts(s, task, world, startRound, rounds, goal, worker, adm);
      hide Inv, Evolves, Claim;
      InsertKeeps(s, a);
      var u := s.(attempts := s.attempts + [a]);
      OutboxFrame(u, t.outbox);
      EvolvesTransitive(s, u, t);
    }
  }

  lemma SameEvolves(s: State)
    ensures Evolves(s, s)
  {
  }

  lemma ObserveKeeps(s: State, run: nat, kind: AttemptState, reason: Option<string>, reply: Option<string>,
      fact: Option<string>)
    requires Inv(s) && Observe(s, run, kind, reason, reply, fact).Ok?
    ensures Inv(Observe(s, run, kind, reason, reply, fact).value)
        && Evolves(s, Observe(s, run, kind, reason, reply, fact).value)
  {
    hide Inv, Evolves, Deliver;
    SameEvolves(s);
    var t := Observe(s, run, kind, reason, reply, fact).value;
    if t != s {
      var id := Latest(s.attempts, OfRun(run)).value;
      var a := s.attempts[id];
      DeliverKeeps(s, Receipt(if fact.Some? then Fact(fact.value)
          else Observed(id, kind, reason, reply), id, a.lastSequence + 1, a.fence, kind,
                              if reason == Some("") then None else reason, reply));
    }
  }

  lemma InsertResumed(s: State, id: nat)
    requires Inv(s) && id < |s.attempts| && Latest(s.attempts, OfTask(s.attempts[id].task)) == Some(id)
    requires Insertable(s.attempts, Resumed(s.attempts[id], s.owner))
    ensures
      var u := s.(attempts := s.attempts + [Resumed(s.attempts[id], s.owner)]);
      Inv(u) && Evolves(s, u)
  {
    var a := Resumed(s.attempts[id], s.owner);
    forall i | 0 <= i < |s.attempts| && s.attempts[i].task == a.task ensures s.attempts[i].fence < a.fence {
      assert Matches(s.attempts[i], OfTask(a.task));
    }
    forall i | 0 <= i < |s.attempts| && s.attempts[i].run == a.run ensures s.attempts[i].task == a.task {
      assert i < id || i == id || id < i;
    }
    InsertKeeps(s, a);
  }

  lemma ResumeKeeps(s: State, run: nat)
    requires Inv(s) && ResumeLegacyRun(s, run).Ok?
    ensures Inv(ResumeLegacyRun(s, run).value) && Evolves(s, ResumeLegacyRun(s, run).value)
  {
    hide Inv, Evolves, Observe;
    var r := Latest(s.attempts, OfRun(run));
    if r.Some? && !Active(s.attempts[r.value].state) {
      var u := s.(attempts := s.attempts + [Resumed(s.attempts[r.value], s.owner)]);
      InsertResumed(s, r.value);
      ObserveKeeps(u, run, Running, None, None, None);
      EvolvesTransitive(s, u, Observe(u, run, Running, None, None, None).value);
    } else {
      OtherRowsFrame(s, s);
    }
  }

  /** One attempt's row changes, its applied receipts do not. */
  lemma AttemptFrame(s: State, id: nat, b: Attempt)
    requires Inv(s) && id < |s.attempts| && AttemptEvolves(s.attempts[id], b)
        && b.lastSequence == s.attempts[id].lastSequence
    requires Active(b.state) ==> Active(s.attempts[id].state)
    requires Holding(b) ==> Holding(s.attempts[id])
    ensures Inv(s.(attempts := s.attempts[id := b])) && Evolves(s, s.(attempts := s.attempts[id := b]))
  {
    var t := s.(attempts := s.attempts[id := b]);
    AttemptChangeKeepsFences(s.attempts, id, b);
    assert forall i :: 0 <= i < |s.attempts| ==>
        NextSlot(t, i) == NextSlot(s, i) && AttemptEvolves(s.attempts[i], t.attempts[i]);
  }

  lemma CancelKeeps(s: State, run: nat)
    requires Inv(s)
    ensures Inv(CancelPrepared(s, run)) && Evolves(s, CancelPrepared(s, run))
  {
    hide Fenced, InboxOk, Settled, Evolves;
    var t, r := CancelPrepared(s, run), Latest(s.attempts, OfRun(run));
    if r.Some? && s.attempts[r.value].state.DispatchPending? {
      var u := s.(attempts := t.attempts);
      AttemptFrame(s, r.value, t.attempts[r.value]);
      OutboxFrame(u, t.outbox);
      EvolvesTransitive(s, u, t);
    } else {
      OutboxFrame(s, s.outbox);
    }
  }

  lemma AdoptKeeps(s: State, run: nat)
    requires Inv(s)
    ensures Inv(AdoptAfterExit(s, run)) && Evolves(s, AdoptAfterExit(s, run))
  {
    var t, r := AdoptAfterExit(s, run), Latest(s.attempts, OfRun(run));
    if r.Some? && Active(s.attempts[r.value].state) {
      AttemptFrame(s, r.value, s.attempts[r.value].(lease := s.owner));
    }
    OutboxFrame(s, s.outbox);
  }

  lemma TakeKeeps(s: State, id: nat, on: Option<string>)
    requires Inv(s) && TakeDispatch(s, id, on).Ok?
    ensures Inv(TakeDispatch(s, id, on).value.next) && Evolves(s, TakeDispatch(s, id, on).value.next)
  {
    OutboxFrame(s, TakeDispatch(s, id, on).value.next.outbox);
  }

  /** Tasks, goals and the controller's own name are not part of the invariant. */
  lemma OtherRowsFrame(s: State, t: State)
    requires Inv(s) && t == s.(tasks := t.tasks, goals := t.goals, owner := t.owner) && |s.tasks| <= |t.tasks|
    ensures Inv(t) && Evolves(s, t)
  {
    assert forall i :: 0 <= i < |s.attempts| ==>
        NextSlot(t, i) == NextSlot(s, i) && AttemptEvolves(s.attempts[i], t.attempts[i]);
  }

  lemma StepKeeps(s: State, op: Op)
    requires Inv(s)
    ensures Inv(Step(s, op)) && Evolves(s, Step(s, op))
  {
    hide Inv, Evolves, Claim, Deliver, Observe, ResumeLegacyRun, TakeDispatch, CancelPrepared, AdoptAfterExit;
    OtherRowsFrame(s, s);
    match op
    case ClaimOp(task, world, startRound, rounds, goal, worker, adm) =>
      if Claim(s, task, world, startRound, rounds, goal, worker, adm).Ok? {
        ClaimKeeps(s, task, world, startRound, rounds, goal, worker, adm);
      }
    case TakeOp(id, on) => if TakeDispatch(s, id, on).Ok? { TakeKeeps(s, id, on); }
    case CancelOp(run) => CancelKeeps(s, run);
    case DeliverOp(r) => if Deliver(s, r).Ok? { DeliverKeeps(s, r); }
    case ObserveOp(run, kind, reason, reply, fact) =>
      if Observe(s, run, kind, reason, reply, fact).Ok? { ObserveKeeps(s, run, kind, reason, reply, fact); }
    case AdoptOp(run) => AdoptKeeps(s, run);
    case ResumeOp(run) => if ResumeLegacyRun(s, run).Ok? { ResumeKeeps(s, run); }
    case _ => OtherRowsFrame(s, Step(s, op));
  }

  /** In every run: fences increase, a task has at most one active attempt and a world at most one holder. */
  lemma {:induction false} RunKeepsInv(ops: seq<Op>)
    ensures Inv(Run(INITIAL, ops))
  {
    if ops != [] {
      RunKeepsInv(ops[..|ops| - 1]);
      StepKeeps(Run(INITIAL, ops[..|ops| - 1]), ops[|ops| - 1]);
    }
  }

  /** In every run a terminal attempt never changes again, a launched command is never offered again, and no receipt is
      forgotten. */
  lemma {:induction false} RunEvolves(ops: seq<Op>, more: seq<Op>)
    ensures Evolves(Run(INITIAL, ops), Run(INITIAL, ops + more))
  {
    if more == [] {
      assert ops + more == ops;
    } else {
      var all := ops + more;
      assert all[..|all| - 1] == ops + more[..|more| - 1];
      RunEvolves(ops, more[..|more| - 1]);
      RunKeepsInv(all[..|all| - 1]);
      StepKeeps(Run(INITIAL, all[..|all| - 1]), all[|all| - 1]);
      EvolvesTransitive(Run(INITIAL, ops), Run(INITIAL, all[..|all| - 1]), Run(INITIAL, all));
    }
  }
}
