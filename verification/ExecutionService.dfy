/** The execution service as it runs: its tables are changed row by row inside a transaction, and put back when it
    throws. */
module ExecutionService {
  import opened Wrappers
  import opened AttemptStates
  import opened E = Execution
  import Receipts

  class CompanyExecutionService {
    var attempts: seq<Attempt>
    var tasks: seq<Task>
    var goals: map<nat, Goal>
    var outbox: map<nat, Outbox>
    var inbox: Inbox
    var owner: nat

    ghost function Rows(): State
      reads this
    {
      State(attempts, tasks, goals, outbox, inbox, owner)
    }

    ghost predicate Valid()
      reads this
    {
      Inv(Rows())
    }

    constructor ()
      ensures Valid() && Rows() == INITIAL
    {
      attempts, tasks, goals, outbox, inbox, owner := [], [], map[], map[], map[], 0;
    }

    /** Puts back the rows a transaction started from. */
    method Rollback(saved: State)
      modifies this
      ensures Rows() == saved
    {
      attempts, tasks, goals, outbox, inbox, owner := saved.attempts, saved.tasks, saved.goals, saved.outbox,
          saved.inbox, saved.owner;
    }

    method Begin() returns (saved: State)
      ensures saved == Rows()
    {
      saved := State(attempts, tasks, goals, outbox, inbox, owner);
    }

    /** The attempt of a task or run with the highest fence. */
    method Newest(key: Key) returns (r: Option<nat>)
      ensures r == Latest(attempts, key)
    {
      r := None;
      for i := 0 to |attempts|
        invariant r == Latest(attempts[..i], key)
      {
        assert attempts[..i + 1][..i] == attempts[..i];
        if Matches(attempts[i], key) && (r.None? || attempts[i].fence > attempts[r.value].fence) {
          r := Some(i);
        }
      }
      assert attempts[..|attempts|] == attempts;
    }

    /** Whether another attempt holds its world, or is the live one of the same work. */
    method Clashing(id: nat) returns (clash: bool)
      requires id < |attempts|
      ensures clash == Clash(attempts, id)
    {
      clash := false;
      for i := 0 to |attempts|
        invariant clash <==>
            exists j ::
            0 <= j < i && j != id && Holding(attempts[j])
            && (attempts[j].world == attempts[id].world || attempts[j].task == attempts[id].task)
      {
        if i != id && Holding(attempts[i])
            && (attempts[i].world == attempts[id].world || attempts[i].task == attempts[id].task) {
          clash := true;
        }
      }
    }

    /** An attempt that failed, stopped or was interrupted blocks its goal, unless the goal has moved on. */
    method Block(binding: Option<Binding>, kind: AttemptState, reason: Option<string>)
      modifies `goals
      ensures goals == BlockGoal(old(goals), binding, kind, reason)
    {
      if binding.Some? && !kind.Running? && !kind.Completed? && binding.value.goal in goals {
        var goal := goals[binding.value.goal];
        if goal.revision == binding.value.revision && (goal.status.GoalReady? || goal.status.GoalRunning?) {
          var why := if reason.Some? then reason.value else "OWNER_EXECUTION_INTERRUPTED";
          goals := goals[binding.value.goal := goal.(status := GoalBlocked, reason := Some(why))];
        }
      }
    }

    method ApplyBuffered(id: nat) returns (error: Option<string>)
      requires id < |attempts|
      modifies this
      ensures match E.ApplyContiguous(old(Rows()), id)
              case Ok(t) => error.None? && Rows() == t
              case Err(e) => error == Some(e)
    {
      hide Clash, TaskStateFor, BlockGoal;
      while true
        invariant id < |attempts|
        invariant E.ApplyContiguous(Rows(), id) == E.ApplyContiguous(old(Rows()), id)
        decreases Unapplied(inbox)
      {
        ghost var before := Rows();
        var a := attempts[id];
        var slot := Slot(id, a.lastSequence + 1);
        if slot !in inbox || inbox[slot].applied {
          return None;
        }
        var r := inbox[slot].receipt;
        if !Active(a.state) {
          return Some("OWNER_ATTEMPT_TERMINAL");
        }
        var clash := Clashing(id);
        if r.kind.Running? && clash {
          return Some("SQLITE_CONSTRAINT_UNIQUE");
        }
        attempts := attempts[id := a.(state := r.kind, reason := r.reason, lastSequence := r.sequence)];
        if a.task < |tasks| {
          var reply := if r.reply.Some? then r.reply else tasks[a.task].reply;
          tasks := tasks[a.task := Task(TaskStateFor(r.kind), Some(a.run), reply, r.reason)];
        }
        if id in outbox {
          outbox := outbox[id := outbox[id].(state := Delivered)];
        }
        Block(a.goal, r.kind, r.reason);
        inbox := inbox[slot := inbox[slot].(applied := true)];
        assert Rows() == E.ApplyNext(before, id).value;
      }
    }

    method Receive(r: Receipt) returns (error: Option<string>)
      requires Valid()
      modifies this
      ensures Valid()
      ensures match E.Deliver(old(Rows()), r)
              case Ok(t) => error.None? && Rows() == t
              case Err(e) => error == Some(e) && Rows() == old(Rows())
    {
      if !ValidReceipt(r) {
        return Some("OWNER_RECEIPT_INVALID");
      }
      var saved := Begin();
      error := Post(r);
      if error.Some? {
        Rollback(saved);
      } else {
        E.DeliverKeeps(saved, r);
      }
    }

    /** The body of the transaction. */
    method Post(r: Receipt) returns (error: Option<string>)
      requires ValidReceipt(r)
      modifies this
      ensures match E.Deliver(old(Rows()), r)
              case Ok(t) => error.None? && Rows() == t
              case Err(e) => error == Some(e)
    {
      if r.attempt >= |attempts| {
        return Some("OWNER_ATTEMPT_NOT_FOUND");
      }
      if KnownEvent(inbox, r.event) {
        return if KnownReceipt(inbox, r) then None else Some("OWNER_RECEIPT_CONFLICT");
      }
      var a := attempts[r.attempt];
      var latest := Newest(OfTask(a.task));
      if a.fence != r.fence || latest != Some(r.attempt) {
        return Some("OWNER_ATTEMPT_STALE");
      }
      if Slot(r.attempt, r.sequence) in inbox || r.sequence <= a.lastSequence {
        return Some("OWNER_RECEIPT_CONFLICT");
      }
      inbox := inbox[Slot(r.attempt, r.sequence) := InboxRow(r, false)];
      error := ApplyBuffered(r.attempt);
    }

    method Observe(run: nat, kind: AttemptState, reason: Option<string>, reply: Option<string>, fact: Option<string>)
        returns (error: Option<string>)
      requires Valid()
      modifies this
      ensures Valid()
      ensures match E.Observe(old(Rows()), run, kind, reason, reply, fact)
              case Ok(t) => error.None? && Rows() == t
              case Err(e) => error == Some(e) && Rows() == old(Rows())
    {
      hide Inv, E.Deliver, Latest;
      var latest := Newest(OfRun(run));
      if latest.None? || !Active(attempts[latest.value].state) || attempts[latest.value].lease != owner {
        return None;
      }
      var id := latest.value;
      var event := if fact.Some? then Fact(fact.value) else Observed(id, kind, reason, reply);
      if KnownEvent(inbox, event) {
        var slot :| slot in inbox && inbox[slot].receipt.event == event;
        Receipts.RedeliveryChangesNothing(Rows(), slot);
        error := Receive(inbox[slot].receipt);
      } else {
        error := Receive(Receipt(event, id, attempts[id].lastSequence + 1, attempts[id].fence, kind,
                                 if reason == Some("") then None else reason, reply));
      }
    }

    method Claim(task: nat, world: nat, startRound: nat, rounds: nat, goal: Option<Binding>, worker: bool,
        adm: Admission) returns (r: Result<Command>)
      requires Valid()
      modifies this
      ensures Valid()
      ensures match E.Claim(old(Rows()), task, world, startRound, rounds, goal, worker, adm)
              case Ok(c) => r == Ok(c.command) && Rows() == c.next
              case Err(e) => r == Err(e) && Rows() == old(Rows())
    {
      hide Inv, Latest, FirstPending, HasActive, Insertable;
      if adm.on.Some? {
        return Err(adm.on.value);
      }
      ghost var before := Rows();
      var pending := PendingCommand(task);
      if pending.Some? {
        var c := outbox[pending.value].command;
        return if c.world != world || c.rounds != rounds || c.startRound != startRound || c.worker != worker
            || c.goal != goal
               then Err("OWNER_ATTEMPT_CONFLICT") else Ok(c);
      }
      if task >= |tasks| || !tasks[task].state.Queued? || HasActive(attempts, task) {
        return Err("OWNER_ATTEMPT_ALREADY_CLAIMED");
      }
      if !adm.placed {
        return Err("OWNER_ATTEMPT_CONFLICT");
      }
      if adm.rounds.Some? {
        return Err(adm.rounds.value);
      }
      var latest := Newest(OfTask(task));
      var id, fence := |attempts|, if latest.Some? then attempts[latest.value].fence + 1 else 1;
      var a := Attempt(task, world, goal, id, fence, DispatchPending, owner, 0, None);
      if !Insertable(attempts, a) {
        return Err("SQLITE_CONSTRAINT_UNIQUE");
      }
      var saved := Begin();
      attempts := attempts + [a];
      var command := Command(id, task, world, id, fence, startRound, rounds, goal, worker);
      outbox := outbox[id := Outbox(command, Ready)];
      if adm.prepared.Some? {
        Rollback(saved);
        return Err(adm.prepared.value);
      }
      E.ClaimKeeps(before, task, world, startRound, rounds, goal, worker, adm);
      return Ok(command);
    }

    /** The attempt of a task whose command has not been taken yet. */
    method PendingCommand(task: nat) returns (r: Option<nat>)
      ensures r == FirstPending(Rows(), task, 0)
    {
      var i := 0;
      while i < |attempts|
        invariant i <= |attempts| && FirstPending(Rows(), task, 0) == FirstPending(Rows(), task, i)
      {
        if attempts[i].task == task && attempts[i].state.DispatchPending? && i in outbox {
          return Some(i);
        }
        i := i + 1;
      }
      r := None;
    }

    method TakeDispatch(id: nat, on: Option<string>) returns (r: Result<bool>)
      requires Valid()
      modifies this
      ensures Valid()
      ensures match E.TakeDispatch(old(Rows()), id, on)
              case Ok(t) => r == Ok(t.launch) && Rows() == t.next
              case Err(e) => r == Err(e) && Rows() == old(Rows())
    {
      if on.Some? {
        return Err(on.value);
      }
      if id >= |attempts| {
        return Err("OWNER_ATTEMPT_NOT_FOUND");
      }
      if !attempts[id].state.DispatchPending? || attempts[id].lease != owner {
        return Err("OWNER_ATTEMPT_STALE");
      }
      if id !in outbox || !outbox[id].state.Ready? {
        return Ok(false);
      }
      E.TakeKeeps(Rows(), id, on);
      outbox := outbox[id := outbox[id].(state := Launching)];
      return Ok(true);
    }

    method CancelPrepared(run: nat)
      requires Valid()
      modifies this
      ensures Valid() && Rows() == E.CancelPrepared(old(Rows()), run)
    {
      E.CancelKeeps(Rows(), run);
      var latest := Newest(OfRun(run));
      if latest.None? || !attempts[latest.value].state.DispatchPending? {
        return;
      }
      var id := latest.value;
      attempts := attempts[id := attempts[id].(state := Interrupted, reason := Some("OWNER_DISPATCH_NOT_STARTED"))];
      if id in outbox {
        outbox := outbox[id := outbox[id].(state := Cancelled)];
      }
    }

    method AdoptAfterExit(run: nat)
      requires Valid()
      modifies this
      ensures Valid() && Rows() == E.AdoptAfterExit(old(Rows()), run)
    {
      E.AdoptKeeps(Rows(), run);
      var latest := Newest(OfRun(run));
      if latest.None? || !Active(attempts[latest.value].state) || attempts[latest.value].lease == owner {
        return;
      }
      attempts := attempts[latest.value := attempts[latest.value].(lease := owner)];
    }

    method ResumeLegacyRun(run: nat) returns (error: Option<string>)
      requires Valid()
      modifies this
      ensures Valid()
      ensures match E.ResumeLegacyRun(old(Rows()), run)
              case Ok(t) => error.None? && Rows() == t
              case Err(e) => error == Some(e) && Rows() == old(Rows())
    {
      var prior := Newest(OfRun(run));
      if prior.None? || Active(attempts[prior.value].state) {
        return None;
      }
      var saved := Begin();
      var latest := Newest(OfTask(attempts[prior.value].task));
      if latest != prior {
        return Some("OWNER_ATTEMPT_STALE");
      }
      var a := Resumed(attempts[prior.value], owner);
      if !Insertable(attempts, a) {
        return Some("SQLITE_CONSTRAINT_UNIQUE");
      }
      E.InsertResumed(Rows(), prior.value);
      attempts := attempts + [a];
      error := Observe(run, Running, None, None, None);
      if error.Some? {
        Rollback(saved);
      }
    }
  }
}
