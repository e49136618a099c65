/** The controller's side of the worker protocol as it runs: permits are granted, receipts applied in order, and a dead
    worker's outcome decided. */
module AdapterService {
  import opened Wrappers
  import opened AttemptStates
  import opened Journal
  import opened W = WorkerProtocol
  import Ledger

  class CompanyWorkerAdapter {
    const spec: Spec
    const firstPermit: nat
    var ledger: Ledger.State
    var grants: map<nat, Grant>
    var launch: Launch
    var epoch: nat
    var attempt: AttemptState
    var reason: string
    var stops: set<nat>
    var blind: bool
    var inbox: map<nat, Event>
    var lastSequence: nat
    var commands: map<ToolId, CommandRow>
    var applied: seq<Event>

    function Rows(): Controller
      reads this
    {
      Controller(ledger, firstPermit, grants, launch, epoch, attempt, reason, stops, blind, inbox, lastSequence,
          applied, commands)
    }

    /** A claimed attempt whose first permit has been prepared. */
    constructor (spec: Spec, ledger: Ledger.State, firstPermit: nat)
      ensures this.spec == spec
      ensures Rows() == Controller(ledger, firstPermit, map[], LaunchReady, 0, DispatchPending, "", {}, false, map[], 0,
          [], map[])
    {
      this.spec, this.ledger, this.firstPermit, grants, launch, epoch := spec, ledger, firstPermit, map[], LaunchReady,
          0;
      attempt, reason, stops, blind, inbox, lastSequence, commands, applied := DispatchPending, "", {}, false, map[], 0,
          map[], [];
    }

    /** Replaces the rows by those another transaction left. */
    method Load(c: Controller)
      requires c.firstPermit == firstPermit
      modifies this
      ensures Rows() == c
    {
      ledger, grants, launch, epoch, attempt, reason := c.ledger, c.grants, c.launch, c.epoch, c.attempt, c.reason;
      stops, blind, inbox, lastSequence, applied, commands := c.stops, c.blind, c.inbox, c.lastSequence, c.applied,
          c.commands;
    }

    method Observe(kind: AttemptState, why: string)
      modifies `attempt, `reason
      ensures Rows() == W.Observe(old(Rows()), kind, why)
    {
      if Active(attempt) {
        attempt, reason := kind, why;
      }
    }

    method BoundTo(permit: nat, step: nat) returns (bound: bool)
      ensures bound == Bound(spec, Rows(), permit, step)
    {
      bound := permit < |ledger.permits| && ledger.permits[permit].source == Some(SourceOf(spec, step));
    }

    /** What one event changes, on its way through a transaction that may still fail. */
    method Apply(e: Event) returns (error: Option<string>)
      modifies `ledger, `attempt, `reason
      ensures match ApplyEvent(spec, old(Rows()), e)
              case Ok(t) => error.None? && Rows() == t
              case Err(code) => error == Some(code) && Rows() == old(Rows())
    {
      match e {
        case AnswerEvent(step, permit, response) =>
          var bound := BoundTo(permit, step);
          if !bound {
            return Some("OWNER_WORKER_OPERATION_CONFLICT");
          }
          var l := Ledger.Respond(ledger, permit, response);
          if l.Err? {
            return Some(l.error);
          }
          ledger := l.value;
        case FailureEvent(step, permit, notSent) =>
          var bound := BoundTo(permit, step);
          if !bound {
            return Some("OWNER_WORKER_OPERATION_CONFLICT");
          }
          ledger := Ledger.Fail(ledger, permit, notSent);
        case FinishEvent(kind, why) => Observe(kind, why);
        case _ =>
      }
      return None;
    }

    /** Applies what is waiting while the next event is there. */
    method ApplyWaiting() returns (error: Option<string>)
      modifies `ledger, `attempt, `reason, `lastSequence, `applied
      ensures match Drain(spec, old(Rows()))
              case Ok(t) => error.None? && Rows() == t
              case Err(code) => error == Some(code)
    {
      var sequence := lastSequence;
      ghost var start := Rows();
      while true
        invariant lastSequence == sequence && Drain(spec, Rows()) == Drain(spec, start)
        decreases Buffered(Rows())
      {
        var n := sequence + 1;
        if n !in inbox {
          return None;
        }
        ghost var before := Rows();
        error := Apply(inbox[n]);
        if error.Some? {
          return;
        }
        sequence := n;
        lastSequence := n;
        applied := applied + [inbox[n]];
        assert n in Buffered(before) && n !in Buffered(Rows()) && Buffered(Rows()) <= Buffered(before);
      }
    }

    method Receive(sequence: nat, e: Event) returns (error: Option<string>)
      modifies this
      ensures match W.Receive(spec, old(Rows()), sequence, e)
              case Ok(t) => error.None? && Rows() == t
              case Err(code) => error == Some(code) && Rows() == old(Rows())
    {
      hide Drain;
      if sequence in inbox {
        return if inbox[sequence] == e then None else Some("OWNER_RECEIPT_CONFLICT");
      }
      var l, a, r, i, s := ledger, attempt, reason, inbox, lastSequence;
      var history := applied;
      inbox := inbox[sequence := e];
      error := ApplyWaiting();
      if error.Some? {
        ledger, attempt, reason, inbox, lastSequence, applied := l, a, r, i, s, history;
      }
    }

    method Authorize(step: nat, history: seq<nat>, t: Terms) returns (r: Result<nat>)
      modifies this
      ensures match W.Authorize(spec, old(Rows()), step, history, t)
              case Ok(a) => r == Ok(a.permit) && Rows() == a.c
              case Err(code) => r == Err(code) && Rows() == old(Rows())
    {
      var refusal := IntentRefusalNow(t.denied);
      if refusal.Some? {
        return Err(refusal.value);
      }
      if step == 0 && firstPermit < |ledger.permits| && Ledger.Pending(ledger.permits[firstPermit])
          && firstPermit !in grants {
        if history != [] {
          return Err("OWNER_WORKER_OPERATION_CONFLICT");
        }
        ledger := ledger.(permits := ledger.permits[firstPermit := ledger.permits[firstPermit].(state := Ledger.Sent)]);
        grants := grants[firstPermit := Grant(step, epoch)];
        return Ok(firstPermit);
      }
      var denied := ScopeRefusalNow();
      var source := Ledger.Source(Ledger.ModelStep(spec.attempt, step), Ledger.CompanyWorker, Some(spec.world));
      var saved := ledger;
      var o := Ledger.Prepare(ledger,
          Ledger.Call(Some(source), Ledger.StepRequest(step, history), t.price, t.messageBytes, spec.maxOutput,
          t.goalBound, denied));
      if o.result.Err? {
        return Err(o.result.error);
      }
      ledger := o.next;
      var permit := o.result.value.id;
      if permit in grants {
        ledger := saved;
        return Err("SQLITE_CONSTRAINT_PRIMARYKEY");
      }
      grants := grants[permit := Grant(step, epoch)];
      return Ok(permit);
    }

    method IntentRefusalNow(denied: Option<string>) returns (r: Option<string>)
      ensures r == IntentRefusal(Rows(), denied)
      ensures r ==
        if ledger.maintenance then Some("EVOLUTION_QUIESCED")
        else if !ledger.on then Some("OWNER_AUTOMATION_OFF")
        else if ledger.safetyHold.Some? then Some("OWNER_PROVIDER_USAGE_EXCEEDED_RESERVATION")
        else if ledger.schedulerHold then Some("OWNER_SCHEDULER_FAILED")
        else if denied.Some? then denied
        else if attempt.DispatchPending? || attempt.Running? || attempt.Suspended? then None
        else Some("OWNER_ATTEMPT_STALE")
    {
      if ledger.maintenance {
        return Some("EVOLUTION_QUIESCED");
      }
      if !ledger.on {
        return Some("OWNER_AUTOMATION_OFF");
      }
      var hold := Ledger.HoldReason(ledger);
      if hold.Some? {
        return hold;
      }
      if denied.Some? {
        return denied;
      }
      return if Active(attempt) then None else Some("OWNER_ATTEMPT_STALE");
    }

    method ScopeRefusalNow() returns (r: Option<string>)
      ensures r == ScopeRefusal(spec, Rows())
      ensures r == Some("OWNER_ATTEMPT_STALE") <==> !attempt.DispatchPending? && !attempt.Running?
      ensures r == Some("OWNER_OUTCOME_REVIEW_REQUIRED") <==>
        && (attempt.DispatchPending? || attempt.Running?)
        && exists p :: 0 <= p < |ledger.permits| && Unreviewed(spec, ledger.permits[p])
      ensures r.Some? ==> r.value in {"OWNER_ATTEMPT_STALE", "OWNER_OUTCOME_REVIEW_REQUIRED"}
    {
      if !attempt.DispatchPending? && !attempt.Running? {
        return Some("OWNER_ATTEMPT_STALE");
      }
      for p := 0 to |ledger.permits|
        invariant forall q :: 0 <= q < p ==> !Unreviewed(spec, ledger.permits[q])
      {
        if Unreviewed(spec, ledger.permits[p]) {
          return Some("OWNER_OUTCOME_REVIEW_REQUIRED");
        }
      }
      r := None;
    }

    /** Whether a call of this attempt may have been delivered and has no stored response. */
    method HasOpenCall() returns (r: bool)
      ensures r == UnknownOutcome(spec, Rows())
    {
      for p := 0 to |ledger.permits|
        invariant forall q :: 0 <= q < p ==> !OpenCall(spec, ledger.permits[q])
      {
        if OpenCall(spec, ledger.permits[p]) {
          return true;
        }
      }
      r := false;
    }

    /** Whether a tool other than the artifact writer was started and has no receipt here. */
    method HasUnknownTool(j: Rows) returns (r: bool)
      ensures r == UnknownTool(j, Rows())
    {
      var ids := j.tools.Keys;
      while ids != {}
        invariant ids <= j.tools.Keys
        invariant forall id :: id in j.tools && id !in ids ==> !UnfinishedTool(j, Rows(), id)
        decreases ids
      {
        var id :| id in ids;
        ids := ids - {id};
        var tool := j.tools[id].tool;
        var receipted := id in commands && commands[id].result.Some? && commands[id].result.value.id == id
            && commands[id].result.value.tool == tool;
        if j.tools[id].state.ToolStarted? && !tool.SaveArtifact? && !receipted {
          return true;
        }
      }
      r := false;
    }

    lemma SameOutcomes(c: Controller, d: Controller, j: Rows)
      requires d == c.(attempt := d.attempt, reason := d.reason)
      ensures UnknownOutcome(spec, d) == UnknownOutcome(spec, c) && UnknownTool(j, d) == UnknownTool(j, c)
    {
      assert forall id :: id in j.tools ==> UnfinishedTool(j, d, id) == UnfinishedTool(j, c, id);
    }

    lemma VerdictMeans(j: Rows, c: Controller, reading: Reading)
      requires Active(c.attempt)
      ensures
        var d := Diagnosis(spec, j, c, reading);
        var t := W.Observe(c, d.0, d.1);
        && !t.attempt.DispatchPending? && !t.attempt.Running?
        && (UnknownOutcome(spec, t) <==> t.attempt.Blocked? && t.reason == "CALL_OUTCOME_UNKNOWN")
        && (t.attempt.Suspended? && reading.Readable? ==> !UnknownTool(j, t))
        && (t.attempt.Failed? ==> c.firstPermit !in c.grants)
    {
      hide UnknownOutcome, UnknownTool, LastSuspension, SuspendReason;
      var d := Diagnosis(spec, j, c, reading);
      SameOutcomes(c, W.Observe(c, d.0, d.1), j);
    }

    /** The verdict over an attempt that has not ended, from what was found about it. An open call always leaves it to
        the owner; it is suspended only when nothing that was read is open, and failed exactly when nothing is open,
        there is no evidence, and its first permit was never used. */
    method RecordStop(ghost j: Rows, ghost reading: Reading, journalFresh: bool, unknown: bool, unknownTool: bool,
        seen: Option<string>, checkpointSafe: bool)
      requires unknown == UnknownOutcome(spec, Rows()) && unknownTool == (reading.Readable? && UnknownTool(j, Rows()))
      requires journalFresh == (reading.Broken? || !j.file.Ready?)
      requires checkpointSafe == (reading.Readable? && !j.file.Absent? && j.terminal.None?)
      requires seen == if reading.Readable? then LastSuspension(j.events) else reading.seen
      modifies `attempt, `reason
      ensures
        var d := Diagnosis(spec, j, old(Rows()), reading);
        Rows() == W.Observe(old(Rows()), d.0, d.1)
      ensures Active(old(attempt)) ==>
        && !attempt.DispatchPending? && !attempt.Running?
        && (UnknownOutcome(spec, Rows()) <==> attempt.Blocked? && reason == "CALL_OUTCOME_UNKNOWN")
        && (attempt.Suspended? && reading.Readable? ==> !UnknownTool(j, Rows()))
        && (attempt.Failed? <==> !unknown && !unknownTool && journalFresh && firstPermit !in grants)
        && (attempt.Suspended? ==> !unknown && !unknownTool && reason == if seen.Some? then seen.value
              else "OWNER_CONTROLLER_DISCONNECTED")
        && (attempt.Blocked? && !unknown ==> (unknownTool <==> reason == "TOOL_OUTCOME_UNKNOWN"))
    {
      hide UnknownOutcome, UnknownTool, LastSuspension, SuspendReason;
      if Active(attempt) { VerdictMeans(j, Rows(), reading); }
      if journalFresh && firstPermit !in grants && !unknownTool && !unknown {
        Observe(Failed, "OWNER_WORKER_DIED_BEFORE_START");
      } else if unknown {
        Observe(Blocked, "CALL_OUTCOME_UNKNOWN");
      } else if unknownTool {
        Observe(Blocked, "TOOL_OUTCOME_UNKNOWN");
      } else if (seen.Some? && SuspendReason(seen.value)) || checkpointSafe {
        Observe(Suspended, if seen.Some? then seen.value else "OWNER_CONTROLLER_DISCONNECTED");
      } else {
        Observe(Blocked, "OWNER_WORKER_FAILED");
      }
    }

    /** The verdict over a dead worker, recorded once for its epoch. `seen` is the last suspension that was read. */
    method Decide(j: Rows, reading: Reading, seen: Option<string>)
      requires seen == if reading.Readable? then LastSuspension(j.events) else reading.seen
      modifies this
      ensures Rows() == W.Decide(spec, j, old(Rows()), reading)
    {
      var unknown := HasOpenCall();
      var unknownTool := false;
      if reading.Readable? {
        unknownTool := HasUnknownTool(j);
      }
      if Active(attempt) && epoch !in stops {
        var journalFresh := reading.Broken? || !j.file.Ready?;
        var checkpointSafe := reading.Readable? && !j.file.Absent? && j.terminal.None?;
        RecordStop(j, reading, journalFresh, unknown, unknownTool, seen, checkpointSafe);
        stops, blind := stops + {epoch}, reading.Broken?;
      }
      launch := if attempt.Suspended? then LaunchSuspended else Exited;
    }
  }
}
