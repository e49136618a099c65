/** What the delivery of a receipt leaves in the tables (company_execution_service.ts), said of the receipts themselves:
    the last one applied decides the attempt and its task, the first one that stops the work decides the goal. */
module Deliveries {
  import opened Wrappers
  import opened Execution

  function At(inbox: Inbox, id: nat, n: nat): Receipt
    requires Slot(id, n) in inbox
  {
    inbox[Slot(id, n)].receipt
  }

  /** Receipts of the attempt are there for every number after `from`, up to `to`. */
  ghost predicate Stored(inbox: Inbox, id: nat, from: nat, to: nat) {
    forall n: nat :: from < n <= to ==> Slot(id, n) in inbox
  }

  ghost predicate Replies(inbox: Inbox, id: nat, n: nat) {
    Slot(id, n) in inbox && At(inbox, id, n).reply.Some?
  }

  ghost predicate LastReply(inbox: Inbox, id: nat, n: nat, to: nat) {
    n <= to && Replies(inbox, id, n) && forall m: nat :: n < m <= to ==> !Replies(inbox, id, m)
  }

  /** The reply is the last one given in the run, or the one there was. */
  ghost predicate ReplyLeft(inbox: Inbox, id: nat, from: nat, to: nat, before: Option<string>, after: Option<string>) {
    || (after == before && forall n: nat :: from < n <= to ==> !Replies(inbox, id, n))
    || exists n: nat :: LastReply(inbox, id, n, to) && from < n && after == At(inbox, id, n).reply
  }

  ghost predicate TaskLeft(inbox: Inbox, id: nat, from: nat, to: nat, run: nat, before: Task, after: Task)
    requires Slot(id, to) in inbox
  {
    var last := At(inbox, id, to);
    && (after.state.TaskRunning? <==> last.kind.Running?)
    && (after.state.Replied? <==> last.kind.Completed?)
    && (after.state.TaskFailed? <==> last.kind.Failed?)
    && (after.state.TaskBlocked? <==> last.kind.Blocked? || last.kind.Interrupted? || last.kind.Suspended?)
    && after.run == Some(run) && after.reason == last.reason
    && ReplyLeft(inbox, id, from, to, before.reply, after.reply)
  }

  /** A receipt that is neither a start nor a success. */
  ghost predicate Stops(inbox: Inbox, id: nat, n: nat) {
    Slot(id, n) in inbox && !At(inbox, id, n).kind.Running? && !At(inbox, id, n).kind.Completed?
  }

  ghost predicate FirstStop(inbox: Inbox, id: nat, from: nat, n: nat) {
    from < n && Stops(inbox, id, n) && forall m: nat :: from < m < n ==> !Stops(inbox, id, m)
  }

  /** The reason given to the owner. */
  function Why(r: Receipt): Option<string> {
    if r.reason.Some? then r.reason else Some("OWNER_EXECUTION_INTERRUPTED")
  }

  /** The goal still works on what the attempt was made for. */
  predicate Concerned(goal: Goal, binding: Binding) {
    goal.revision == binding.revision && (goal.status.GoalReady? || goal.status.GoalRunning?)
  }

  /** A goal still concerned is blocked if and only if some receipt of the run stops the work, for the reason of the
      first; any other goal is left alone. */
  ghost predicate GoalLeft(inbox: Inbox, id: nat, from: nat, to: nat, binding: Binding, before: Goal, after: Goal) {
    && (Concerned(before, binding) ==>
          (after.status.GoalBlocked? <==> exists n: nat :: from < n <= to && Stops(inbox, id, n)))
    && (!(Concerned(before, binding) && after.status.GoalBlocked?) ==> after == before)
    && (Concerned(before, binding) && after.status.GoalBlocked? ==>
          exists n: nat :: FirstStop(inbox, id, from, n) && n <= to
            && after == before.(status := GoalBlocked, reason := Why(At(inbox, id, n))))
  }

  ghost predicate GoalsLeft(s: State, t: State, id: nat)
    requires id < |s.attempts| && id < |t.attempts|
  {
    var a, to := s.attempts[id], t.attempts[id].lastSequence;
    && t.goals.Keys == s.goals.Keys
    && forall g :: g in s.goals ==>
        if a.goal.Some? && a.goal.value.goal == g
        then GoalLeft(t.inbox, id, a.lastSequence, to, a.goal.value, s.goals[g], t.goals[g])
        else t.goals[g] == s.goals[g]
  }

  /** The rows after a contiguous run of at least one receipt was applied. */
  ghost predicate RunLeft(s: State, t: State, id: nat)
    requires id < |s.attempts| && s.attempts[id].task < |s.tasks|
  {
    && |t.attempts| == |s.attempts| && |t.tasks| == |s.tasks| && t.owner == s.owner
    && var a, to := s.attempts[id], t.attempts[id].lastSequence;
    && a.lastSequence < to && Stored(t.inbox, id, a.lastSequence, to)
    && t.attempts == s.attempts[id := a.(state := At(t.inbox, id, to).kind, reason := At(t.inbox, id, to).reason,
        lastSequence := to)]
    && t.tasks == s.tasks[a.task := t.tasks[a.task]]
    && TaskLeft(t.inbox, id, a.lastSequence, to, a.run, s.tasks[a.task], t.tasks[a.task])
    && t.outbox == (if id in s.outbox then s.outbox[id := s.outbox[id].(state := Delivered)] else s.outbox)
    && GoalsLeft(s, t, id)
  }

  /** Nothing but the flags of the inbox may differ. */
  ghost predicate SameReceipts(a: Inbox, b: Inbox) {
    a.Keys == b.Keys && forall slot :: slot in a ==> b[slot].receipt == a[slot].receipt
  }

  // ---- One receipt ----

  /** The receipt applied next. */
  ghost predicate NextIs(s: State, id: nat, r: Receipt) {
    && Applying(s, id) && Waiting(s, id) && s.inbox[NextSlot(s, id)].receipt == r
    && ValidReceipt(r) && r.sequence == s.attempts[id].lastSequence + 1
  }

  lemma NextReceipt(s: State, id: nat)
    requires Applying(s, id) && Waiting(s, id)
    ensures NextIs(s, id, s.inbox[NextSlot(s, id)].receipt)
  {
    hide Fenced;
  }

  lemma ReplyOfOne(inbox: Inbox, id: nat, n: nat, before: Option<string>)
    requires n > 0 && Slot(id, n) in inbox
    ensures
      var r := At(inbox, id, n);
      ReplyLeft(inbox, id, n - 1, n, before, if r.reply.Some? then r.reply else before)
  {
    if At(inbox, id, n).reply.Some? { assert LastReply(inbox, id, n, n); }
  }

  lemma OneTaskLeft(s: State, id: nat, r: Receipt)
    requires NextIs(s, id, r) && ApplyNext(s, id).Ok?
    ensures
      var t, a := ApplyNext(s, id).value, s.attempts[id];
      && a.task < |s.tasks| && |t.tasks| == |s.tasks| && t.tasks == s.tasks[a.task := t.tasks[a.task]]
      && Slot(id, r.sequence) in t.inbox && At(t.inbox, id, r.sequence) == r
      && TaskLeft(t.inbox, id, a.lastSequence, r.sequence, a.run, s.tasks[a.task], t.tasks[a.task])
  {
    hide Fenced, Clash, BlockGoal, KnownEvent, ReplyLeft;
    var t := ApplyNext(s, id).value;
    assert At(t.inbox, id, r.sequence) == r;
    ReplyOfOne(t.inbox, id, r.sequence, s.tasks[s.attempts[id].task].reply);
  }

  lemma GoalOfOne(inbox: Inbox, id: nat, n: nat, binding: Binding, before: Goal, after: Goal)
    requires n > 0 && Slot(id, n) in inbox
    requires
      after == if Concerned(before, binding) && Stops(inbox, id, n)
        then before.(status := GoalBlocked, reason := Why(At(inbox, id, n))) else before
    ensures GoalLeft(inbox, id, n - 1, n, binding, before, after)
  {
    if Stops(inbox, id, n) {
      assert FirstStop(inbox, id, n - 1, n);
    } else {
      forall m: nat | n - 1 < m <= n ensures !Stops(inbox, id, m) { assert m == n; }
    }
  }

  lemma OneGoalsLeft(s: State, id: nat, r: Receipt)
    requires NextIs(s, id, r) && ApplyNext(s, id).Ok?
    ensures
      var t := ApplyNext(s, id).value;
      && |t.attempts| == |s.attempts| && t.attempts[id].lastSequence == r.sequence && GoalsLeft(s, t, id)
  {
    hide Fenced, Clash, TaskStateFor, KnownEvent, GoalLeft, InboxOk;
    var t, a := ApplyNext(s, id).value, s.attempts[id];
    assert At(t.inbox, id, r.sequence) == r;
    assert Stops(t.inbox, id, r.sequence) <==> !r.kind.Running? && !r.kind.Completed?;
    forall g | g in s.goals && a.goal.Some? && a.goal.value.goal == g
      ensures g in t.goals && GoalLeft(t.inbox, id, a.lastSequence, r.sequence, a.goal.value, s.goals[g], t.goals[g])
    {
      GoalOfOne(t.inbox, id, r.sequence, a.goal.value, s.goals[g], t.goals[g]);
    }
  }

  lemma OneReceiptLeaves(s: State, id: nat, r: Receipt)
    requires NextIs(s, id, r) && ApplyNext(s, id).Ok?
    ensures
      var t := ApplyNext(s, id).value;
      && s.attempts[id].task < |s.tasks| && RunLeft(s, t, id) && SameReceipts(s.inbox, t.inbox)
      && t.attempts[id].lastSequence == s.attempts[id].lastSequence + 1
  {
    hide Fenced, Clash, TaskStateFor, BlockGoal, KnownEvent, TaskLeft, GoalsLeft, InboxOk;
    OneTaskLeft(s, id, r);
    OneGoalsLeft(s, id, r);
  }

  // ---- A run of receipts ----

  lemma SameRun(a: Inbox, b: Inbox, id: nat, n: nat)
    requires SameReceipts(a, b)
    ensures Slot(id, n) in a <==> Slot(id, n) in b
    ensures Slot(id, n) in a ==> At(a, id, n) == At(b, id, n)
    ensures (Replies(a, id, n) <==> Replies(b, id, n)) && (Stops(a, id, n) <==> Stops(b, id, n))
  {
  }

  lemma RepliesJoin(a: Inbox, b: Inbox, id: nat, from: nat, mid: nat, to: nat, x: Option<string>, y: Option<string>,
      z: Option<string>)
    requires SameReceipts(a, b) && from <= mid <= to
    requires ReplyLeft(a, id, from, mid, x, y) && ReplyLeft(b, id, mid, to, y, z)
    ensures ReplyLeft(b, id, from, to, x, z)
  {
    hide SameReceipts;
    forall n: nat ensures Replies(a, id, n) <==> Replies(b, id, n) { SameRun(a, b, id, n); }
    if n: nat :| LastReply(b, id, n, to) && mid < n && z == At(b, id, n).reply {
    } else if n: nat :| LastReply(a, id, n, mid) && from < n && y == At(a, id, n).reply {
      SameRun(a, b, id, n);
      assert LastReply(b, id, n, to);
    }
  }

  lemma GoalsJoin(a: Inbox, b: Inbox, id: nat, from: nat, mid: nat, to: nat, binding: Binding, x: Goal, y: Goal,
      z: Goal)
    requires SameReceipts(a, b) && from <= mid <= to
    requires GoalLeft(a, id, from, mid, binding, x, y) && GoalLeft(b, id, mid, to, binding, y, z)
    ensures GoalLeft(b, id, from, to, binding, x, z)
  {
    hide SameReceipts;
    forall n: nat ensures Stops(a, id, n) <==> Stops(b, id, n) { SameRun(a, b, id, n); }
    if Concerned(x, binding) && y.status.GoalBlocked? {
      var n: nat :| FirstStop(a, id, from, n) && n <= mid
          && y == x.(status := GoalBlocked, reason := Why(At(a, id, n)));
      SameRun(a, b, id, n);
      assert FirstStop(b, id, from, n);
    } else if Concerned(x, binding) {
      if z.status.GoalBlocked? {
        var n: nat :| FirstStop(b, id, mid, n) && n <= to && z
            == y.(status := GoalBlocked, reason := Why(At(b, id, n)));
        assert FirstStop(b, id, from, n);
      }
    }
  }

  lemma TasksJoin(s: State, u: State, t: State, id: nat)
    requires id < |s.attempts| && s.attempts[id].task < |s.tasks|
    requires RunLeft(s, u, id) && RunLeft(u, t, id) && SameReceipts(u.inbox, t.inbox)
    ensures
      var a, to := s.attempts[id], t.attempts[id].lastSequence;
      Slot(id, to) in t.inbox && TaskLeft(t.inbox, id, a.lastSequence, to, a.run, s.tasks[a.task], t.tasks[a.task])
  {
    hide ReplyLeft, SameReceipts, GoalsLeft;
    var a, mid := s.attempts[id], u.attempts[id].lastSequence;
    RepliesJoin(u.inbox, t.inbox, id, a.lastSequence, mid, t.attempts[id].lastSequence, s.tasks[a.task].reply,
        u.tasks[a.task].reply, t.tasks[a.task].reply);
  }

  lemma AllGoalsJoin(s: State, u: State, t: State, id: nat)
    requires id < |s.attempts| && s.attempts[id].task < |s.tasks|
    requires RunLeft(s, u, id) && RunLeft(u, t, id) && SameReceipts(u.inbox, t.inbox)
    ensures GoalsLeft(s, t, id)
  {
    hide TaskLeft, SameReceipts, GoalLeft;
    var a, mid, to := s.attempts[id], u.attempts[id].lastSequence, t.attempts[id].lastSequence;
    forall g | g in s.goals && a.goal.Some? && a.goal.value.goal == g
      ensures GoalLeft(t.inbox, id, a.lastSequence, to, a.goal.value, s.goals[g], t.goals[g])
    {
      GoalsJoin(u.inbox, t.inbox, id, a.lastSequence, mid, to, a.goal.value, s.goals[g], u.goals[g], t.goals[g]);
    }
  }

  lemma RunsJoin(s: State, u: State, t: State, id: nat)
    requires id < |s.attempts| && s.attempts[id].task < |s.tasks|
    requires RunLeft(s, u, id) && RunLeft(u, t, id) && SameReceipts(u.inbox, t.inbox)
    ensures RunLeft(s, t, id)
  {
    hide TaskLeft, GoalsLeft;
    TasksJoin(s, u, t, id);
    AllGoalsJoin(s, u, t, id);
    forall n: nat | s.attempts[id].lastSequence < n <= t.attempts[id].lastSequence ensures Slot(id, n) in t.inbox {
      if n <= u.attempts[id].lastSequence { SameRun(u.inbox, t.inbox, id, n); }
    }
  }

  lemma SameTransitive(a: Inbox, b: Inbox, c: Inbox)
    requires SameReceipts(a, b) && SameReceipts(b, c)
    ensures SameReceipts(a, c)
  {
  }

  /** What the loop over the buffered receipts leaves. */
  lemma {:induction false} ContiguousLeaves(s: State, id: nat)
    requires Applying(s, id) && ApplyContiguous(s, id).Ok?
    ensures
      var t := ApplyContiguous(s, id).value;
      && SameReceipts(s.inbox, t.inbox)
      && if Waiting(s, id) then s.attempts[id].task < |s.tasks| && RunLeft(s, t, id) else t == s
    decreases Unapplied(s.inbox)
  {
    hide Fenced, InboxOk, RunLeft, ApplyNext, Evolves;
    if Waiting(s, id) {
      var u := ApplyNext(s, id).value;
      NextReceipt(s, id);
      OneReceiptLeaves(s, id, s.inbox[NextSlot(s, id)].receipt);
      ApplyNextKeeps(s, id);
      ContiguousLeaves(u, id);
      var t := ApplyContiguous(s, id).value;
      SameTransitive(s.inbox, u.inbox, t.inbox);
      if Waiting(u, id) { RunsJoin(s, u, t, id); }
    }
  }

  /** What a delivery leaves. A new receipt is stored and nothing else is. If it is not the next one, it waits and no
      other row changes. If it is, it is applied with every receipt contiguous to it: the last of them decides attempt
      and task, the first one that is neither a start nor a success blocks the goal, and the command is marked
      delivered. */
  lemma DeliveryLeaves(s: State, r: Receipt)
    requires Inv(s) && Deliver(s, r).Ok? && !KnownEvent(s.inbox, r.event)
    ensures
      var t, id := Deliver(s, r).value, r.attempt;
      && id < |s.attempts| && s.attempts[id].task < |s.tasks| && Inv(t)
      && t.inbox.Keys == s.inbox.Keys + {Slot(id, r.sequence)} && t.inbox[Slot(id, r.sequence)].receipt == r
      && (forall slot :: slot in s.inbox ==> t.inbox[slot].receipt == s.inbox[slot].receipt)
      && if r.sequence == s.attempts[id].lastSequence + 1
         then RunLeft(s, t, id) && Slot(id, t.attempts[id].lastSequence + 1) !in t.inbox
         else t == s.(inbox := s.inbox[Slot(id, r.sequence) := InboxRow(r, false)])
  {
    hide RunLeft, Fenced, InboxOk, ApplyContiguous;
    var t, id, p := Deliver(s, r).value, r.attempt, Post(s, r);
    DeliverKeeps(s, r);
    PostKeeps(s, r);
    ContiguousLeaves(p, id);
    assert p.inbox.Keys == s.inbox.Keys + {Slot(id, r.sequence)};
    assert p.attempts == s.attempts && p.tasks == s.tasks;
    SamePosted(s, r, t);
    assert NextSlot(t, id) !in t.inbox && NextSlot(s, id) !in s.inbox;
  }

  /** The inbox before the loop began only matters by what is in it. */
  lemma SamePosted(s: State, r: Receipt, t: State)
    requires r.attempt < |s.attempts| && s.attempts[r.attempt].task < |s.tasks|
    ensures RunLeft(Post(s, r), t, r.attempt) == RunLeft(s, t, r.attempt)
  {
    hide TaskLeft, GoalLeft;
  }
}
