/** States an attempt goes through (company_execution_service.ts). */
module AttemptStates {
  datatype AttemptState = DispatchPending | Running | Suspended | Completed | Failed | Blocked | Interrupted

  predicate Active(a: AttemptState) {
    a.DispatchPending? || a.Running? || a.Suspended?
  }
}

/** The private journal of a worker (company_worker_journal.ts): its rows, and what each statement does to them. */
module Journal {
  import opened Wrappers
  import opened AttemptStates
  import Ledger

  datatype CallState = Prepared | CallSent | CallNotSent | CallUnknown | Responded

  /** `attempts` counts the times the row was marked SENT; `permit` is the one journaled last. */
  datatype ModelRow = ModelRow(request: seq<nat>, state: CallState, permit: Option<nat>,
      response: Option<Ledger.Response>, attempts: nat)

  datatype ToolId = ToolId(step: nat, index: nat)

  /** `save_artifact`, a tool the worker runs itself, or a company command the controller runs. */
  datatype Tool = SaveArtifact | Local(name: nat) | Command(name: nat, synchronous: bool)

  datatype ToolResult = ToolResult(id: ToolId, tool: Tool, success: bool, output: nat)

  datatype ToolState = ToolPrepared | ToolStarted | ToolDone

  datatype ToolRow = ToolRow(tool: Tool, args: nat, state: ToolState, result: Option<ToolResult>)

  datatype Event =
    | StartedEvent
    | AnswerEvent(step: nat, permit: nat, response: Ledger.Response)
    | FailureEvent(step: nat, permit: nat, notSent: bool)
    | ToolEvent(id: ToolId, result: ToolResult)
    | AdvanceEvent(nextStep: nat)
    | CorrectionEvent
    | SuspensionEvent(nextStep: nat, reason: string)
    | FinishEvent(kind: AttemptState, reason: string)

  /** `Blank`: the tables exist, the identity row does not. */
  datatype File = Absent | Blank | Ready

  datatype Rows = Rows(
    file: File,
    models: map<nat, ModelRow>,
    tools: map<ToolId, ToolRow>,
    events: seq<Event>,
    acked: set<nat>,
    nextStep: nat,
    history: seq<nat>,
    terminal: Option<AttemptState>)

  const NO_ROWS := Rows(Absent, map[], map[], [], {}, 0, [], None)

  /** Rows a fresh `model` or `tool` call inserts. */
  function FreshModel(request: seq<nat>): ModelRow {
    ModelRow(request, Prepared, None, None, 0)
  }

  function Append(j: Rows, e: Event): Rows {
    j.(events := j.events + [e])
  }

  function OpenModel(j: Rows, step: nat, request: seq<nat>): Result<Rows> {
    if step !in j.models then Ok(j.(models := j.models[step := FreshModel(request)]))
    else if j.models[step].request != request then Err("OWNER_WORKER_OPERATION_CONFLICT")
    else Ok(j)
  }

  function ModelSent(j: Rows, step: nat, permit: nat): Result<Rows> {
    if step !in j.models || !j.models[step].state.Prepared? then Err("OWNER_WORKER_OPERATION_CONFLICT")
    else
      var r := j.models[step];
      Ok(j.(models := j.models[step := r.(state := CallSent, permit := Some(permit), attempts := r.attempts + 1)]))
  }

  function RetryNotSent(j: Rows, step: nat): Result<Rows> {
    if step !in j.models || !j.models[step].state.CallNotSent? || j.models[step].attempts > 1
        then Err("OWNER_WORKER_OPERATION_CONFLICT")
    else Ok(j.(models := j.models[step := j.models[step].(state := Prepared)]))
  }

  /** The state of the row and its event are written in one transaction. */
  function ModelResponse(j: Rows, step: nat, response: Ledger.Response): Result<Rows> {
    if step !in j.models || !j.models[step].state.CallSent? || j.models[step].permit.None?
        then Err("OWNER_WORKER_OPERATION_CONFLICT")
    else
      var r := j.models[step];
      Ok(Append(j.(models := j.models[step := r.(state := Responded, response := Some(response))]),
                AnswerEvent(step, r.permit.value, response)))
  }

  function ModelFailure(j: Rows, step: nat, notSent: bool): Rows {
    if step !in j.models || !j.models[step].state.CallSent? || j.models[step].permit.None? then j
    else
      var r := j.models[step];
      Append(j.(models := j.models[step := r.(state := if notSent then CallNotSent else CallUnknown)]),
             FailureEvent(step, r.permit.value, notSent))
  }

  function OpenTool(j: Rows, id: ToolId, tool: Tool, args: nat): Result<Rows> {
    if id !in j.tools then Ok(j.(tools := j.tools[id := ToolRow(tool, args, ToolPrepared, None)]))
    else if j.tools[id].tool != tool || j.tools[id].args != args then Err("OWNER_WORKER_OPERATION_CONFLICT")
    else Ok(j)
  }

  function StartTool(j: Rows, id: ToolId): Result<Rows> {
    if id !in j.tools || !j.tools[id].state.ToolPrepared? then Err("OWNER_WORKER_OPERATION_CONFLICT")
    else Ok(j.(tools := j.tools[id := j.tools[id].(state := ToolStarted)]))
  }

  function FinishTool(j: Rows, id: ToolId, result: ToolResult): Result<Rows> {
    if id !in j.tools || j.tools[id].state.ToolDone? then Err("OWNER_WORKER_OPERATION_CONFLICT")
    else Ok(Append(j.(tools := j.tools[id := j.tools[id].(state := ToolDone, result := Some(result))]),
        ToolEvent(id, result)))
  }

  function Advance(j: Rows, nextStep: nat, history: seq<nat>): Rows {
    Append(j.(nextStep := nextStep, history := history), AdvanceEvent(nextStep))
  }

  function Finish(j: Rows, kind: AttemptState, reason: string): Rows {
    if j.terminal.Some? then j else Append(j.(terminal := Some(kind)), FinishEvent(kind, reason))
  }

  function Suspend(j: Rows, reason: string): Rows {
    Append(j, SuspensionEvent(j.nextStep, reason))
  }
}
