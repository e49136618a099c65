/** The worker's journal as it runs: guarded updates of its tables, each transaction changing a row and appending its
    event. */
module JournalService {
  import opened Wrappers
  import opened AttemptStates
  import opened J = Journal
  import Ledger

  class CompanyWorkerJournal {
    var file: File
    var models: map<nat, ModelRow>
    var tools: map<ToolId, ToolRow>
    var events: seq<Event>
    var acked: set<nat>
    var nextStep: nat
    var history: seq<nat>
    var terminal: Option<AttemptState>

    function Tables(): Rows
      reads this
    {
      Rows.Rows(file, models, tools, events, acked, nextStep, history, terminal)
    }

    constructor ()
      ensures Tables() == NO_ROWS
    {
      file, models, tools, events, acked, nextStep, history, terminal := Absent, map[], map[], [], {}, 0, [], None;
    }

    /** Creates the tables of a journal that does not exist yet. */
    method CreateTables()
      modifies this
      ensures Tables() == old(Tables()).(file := if old(file).Absent? then Blank else old(file))
    {
      if file.Absent? {
        file := Blank;
      }
    }

    /** Writes the identity row. */
    method Identify()
      modifies this
      ensures Tables() == old(Tables()).(file := Ready)
    {
      file := Ready;
    }

    method AppendEvent(e: Event)
      modifies this
      ensures Tables() == Append(old(Tables()), e)
    {
      events := events + [e];
    }

    method Acknowledge(n: nat)
      modifies this
      ensures Tables() == old(Tables()).(acked := old(acked) + {n})
    {
      acked := acked + {n};
    }

    /** The sequence numbers that are not acknowledged, in order. */
    method Pending() returns (ns: seq<nat>)
      ensures forall n :: n in ns <==> 1 <= n <= |events| && n !in acked
      ensures forall i, k :: 0 <= i < k < |ns| ==> ns[i] < ns[k]
    {
      ns := [];
      for n := 1 to |events| + 1
        invariant forall i :: 0 <= i < |ns| ==> 1 <= ns[i] < n
        invariant forall m :: m in ns <==> 1 <= m < n && m !in acked
        invariant forall i, k :: 0 <= i < k < |ns| ==> ns[i] < ns[k]
      {
        if n !in acked {
          ns := ns + [n];
        }
      }
    }

    method Model(step: nat, request: seq<nat>) returns (error: Option<string>)
      modifies this
      ensures match OpenModel(old(Tables()), step, request)
              case Ok(t) => error.None? && Tables() == t
              case Err(e) => error == Some(e) && Tables() == old(Tables())
      ensures error.None? ==> step in models && models[step].request == request
    {
      if step in models && models[step].request != request {
        return Some("OWNER_WORKER_OPERATION_CONFLICT");
      }
      if step !in models {
        models := models[step := ModelRow(request, Prepared, None, None, 0)];
      }
      return None;
    }

    method ModelSent(step: nat, permit: nat) returns (error: Option<string>)
      modifies this
      ensures match J.ModelSent(old(Tables()), step, permit)
              case Ok(t) => error.None? && Tables() == t
              case Err(e) => error == Some(e) && Tables() == old(Tables())
    {
      if step !in models || !models[step].state.Prepared? {
        return Some("OWNER_WORKER_OPERATION_CONFLICT");
      }
      models := models[step := models[step].(state := CallSent, permit := Some(permit),
          attempts := models[step].attempts + 1)];
      return None;
    }

    method RetryNotSent(step: nat) returns (error: Option<string>)
      modifies this
      ensures match J.RetryNotSent(old(Tables()), step)
              case Ok(t) => error.None? && Tables() == t
              case Err(e) => error == Some(e) && Tables() == old(Tables())
    {
      if step !in models || !models[step].state.CallNotSent? || models[step].attempts > 1 {
        return Some("OWNER_WORKER_OPERATION_CONFLICT");
      }
      models := models[step := models[step].(state := Prepared)];
      return None;
    }

    method ModelResponse(step: nat, response: Ledger.Response) returns (error: Option<string>)
      modifies this
      ensures match J.ModelResponse(old(Tables()), step, response)
              case Ok(t) => error.None? && Tables() == t
              case Err(e) => error == Some(e) && Tables() == old(Tables())
    {
      if step !in models || !models[step].state.CallSent? || models[step].permit.None? {
        return Some("OWNER_WORKER_OPERATION_CONFLICT");
      }
      var permit := models[step].permit.value;
      models := models[step := models[step].(state := Responded, response := Some(response))];
      AppendEvent(AnswerEvent(step, permit, response));
      return None;
    }

    method ModelFailure(step: nat, notSent: bool)
      modifies this
      ensures Tables() == J.ModelFailure(old(Tables()), step, notSent)
    {
      if step !in models || !models[step].state.CallSent? || models[step].permit.None? {
        return;
      }
      var permit := models[step].permit.value;
      models := models[step := models[step].(state := if notSent then CallNotSent else CallUnknown)];
      AppendEvent(FailureEvent(step, permit, notSent));
    }

    method OpenTool(id: ToolId, tool: Tool, args: nat) returns (error: Option<string>)
      modifies this
      ensures match J.OpenTool(old(Tables()), id, tool, args)
              case Ok(t) => error.None? && Tables() == t
              case Err(e) => error == Some(e) && Tables() == old(Tables())
      ensures error.None? ==> id in tools && tools[id].tool == tool
    {
      if id in tools && (tools[id].tool != tool || tools[id].args != args) {
        return Some("OWNER_WORKER_OPERATION_CONFLICT");
      }
      if id !in tools {
        tools := tools[id := ToolRow(tool, args, ToolPrepared, None)];
      }
      return None;
    }

    method ToolStarted(id: ToolId) returns (error: Option<string>)
      modifies this
      ensures match StartTool(old(Tables()), id)
              case Ok(t) => error.None? && Tables() == t
              case Err(e) => error == Some(e) && Tables() == old(Tables())
    {
      if id !in tools || !tools[id].state.ToolPrepared? {
        return Some("OWNER_WORKER_OPERATION_CONFLICT");
      }
      tools := tools[id := tools[id].(state := ToolState.ToolStarted)];
      return None;
    }

    method ToolFinished(id: ToolId, result: ToolResult) returns (error: Option<string>)
      modifies this
      ensures match FinishTool(old(Tables()), id, result)
              case Ok(t) => error.None? && Tables() == t
              case Err(e) => error == Some(e) && Tables() == old(Tables())
    {
      if id !in tools || tools[id].state.ToolDone? {
        return Some("OWNER_WORKER_OPERATION_CONFLICT");
      }
      tools := tools[id := tools[id].(state := ToolDone, result := Some(result))];
      AppendEvent(ToolEvent(id, result));
      return None;
    }

    method AdvanceTo(step: nat, messages: seq<nat>)
      modifies this
      ensures Tables() == Advance(old(Tables()), step, messages)
    {
      nextStep, history := step, messages;
      AppendEvent(AdvanceEvent(step));
    }

    method FinishWith(kind: AttemptState, reason: string)
      modifies this
      ensures Tables() == Finish(old(Tables()), kind, reason)
    {
      if terminal.Some? {
        return;
      }
      terminal := Some(kind);
      AppendEvent(FinishEvent(kind, reason));
    }

    method SuspendFor(reason: string)
      modifies this
      ensures Tables() == Suspend(old(Tables()), reason)
    {
      AppendEvent(SuspensionEvent(nextStep, reason));
    }
  }
}
