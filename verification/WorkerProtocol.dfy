/**
 * One attempt: the worker process with its journal, the controller with its rows, and the messages between them
 * (company_worker_engine.ts, company_worker_adapter.ts, company_tool_service.ts). Either side may die between any
 * two moves. `calls`, `effects` and `applied` record history; no move reads them.
 */
module WorkerProtocol {
  import opened Wrappers
  import opened AttemptStates
  import opened Journal
  import Ledger
  import Money

  // ---- State ----

  datatype Spec = Spec(attempt: nat, world: nat, maxSteps: nat, retries: nat, maxOutput: nat)

  datatype Grant = Grant(step: nat, epoch: nat)

  datatype Launch = LaunchReady | Starting | LaunchRunning | LaunchSuspended | Exited

  /** A company command: whether its effect is committed, and its receipt. */
  datatype CommandRow = CommandRow(tool: Tool, args: nat, effect: bool, result: Option<ToolResult>)

  /** What the controller answers to a command. */
  datatype CommandAnswer = Stored(result: ToolResult) | InProgress | Denied(code: string)

  /** `inbox` holds delivered journal events by sequence number; those up to `lastSequence` are applied. `stops` are the
      epochs whose `worker-stop` fact is recorded; `blind` says that the last such fact was decided without the
      journal. */
  datatype Controller = Controller(
    ledger: Ledger.State,
    firstPermit: nat,
    grants: map<nat, Grant>,
    launch: Launch,
    epoch: nat,
    attempt: AttemptState,
    reason: string,
    stops: set<nat>,
    blind: bool,
    inbox: map<nat, Event>,
    lastSequence: nat,
    applied: seq<Event>,
    commands: map<ToolId, CommandRow>)

  /** What the worker process is doing; lost when it dies. */
  datatype Phase =
    | Down
    | Booting
    | Idle
    | Asking(step: nat)
    | Permitted(step: nat, permit: nat)
    | Armed(step: nat, permit: nat)
    | Calling(step: nat, permit: nat)
    | Answered(step: nat, permit: nat, response: Ledger.Response)
    | Refused(step: nat, permit: nat)
    | Lost(step: nat, permit: nat)
    | RunningTool(id: ToolId)
    | Commanding(id: ToolId)
    | ToolFinished(id: ToolId, result: ToolResult)
    | Correcting

  /** A request of the worker that the controller has not answered yet. */
  datatype Rpc = NoRpc | AskPermit(step: nat, history: seq<nat>) | AskCommand(id: ToolId)

  datatype Verdict = InDoubt | Delivered | ProvedUnsent

  datatype ProviderCall = ProviderCall(step: nat, permit: nat, transport: nat, verdict: Verdict)

  datatype System = System(
    spec: Spec,
    j: Rows,
    c: Controller,
    w: Phase,
    rpc: Rpc,
    connected: bool,
    calls: seq<ProviderCall>,
    effects: multiset<ToolId>)

  // ---- The controller's functions ----

  function SourceOf(spec: Spec, step: nat): Ledger.Source {
    Ledger.Source(Ledger.ModelStep(spec.attempt, step), Ledger.CompanyWorker, Some(spec.world))
  }

  predicate BelongsTo(spec: Spec, p: Ledger.Permit) {
    p.source.Some? && p.source.value.kind.CompanyWorker? && p.source.value.call.ModelStep?
        && p.source.value.call.attempt == spec.attempt
  }

  predicate Bound(spec: Spec, c: Controller, permit: nat, step: nat) {
    permit < |c.ledger.permits| && c.ledger.permits[permit].source == Some(SourceOf(spec, step))
  }

  /** `observe`: a fact changes an attempt only while it is active. */
  function Observe(c: Controller, kind: AttemptState, reason: string): Controller {
    if Active(c.attempt) then c.(attempt := kind, reason := reason) else c
  }

  function ApplyEvent(spec: Spec, c: Controller, e: Event): (r: Result<Controller>)
    ensures r.Ok? ==> r.value.inbox == c.inbox && r.value.lastSequence == c.lastSequence && r.value.applied == c.applied
  {
    match e
    case AnswerEvent(step, permit, response) =>
      if !Bound(spec, c, permit, step) then Err("OWNER_WORKER_OPERATION_CONFLICT")
      else
        var l := Ledger.Respond(c.ledger, permit, response);
        if l.Ok? then Ok(c.(ledger := l.value)) else Err(l.error)
    case FailureEvent(step, permit, notSent) =>
      if !Bound(spec, c, permit, step) then Err("OWNER_WORKER_OPERATION_CONFLICT")
      else Ok(c.(ledger := Ledger.Fail(c.ledger, permit, notSent)))
    case FinishEvent(kind, reason) => Ok(Observe(c, kind, reason))
    case _ => Ok(c)
  }

  function Buffered(c: Controller): set<nat> {
    set n | n in c.inbox && n > c.lastSequence
  }

  /** Applies buffered events while the next one is there. */
  function Drain(spec: Spec, c: Controller): Result<Controller>
    decreases Buffered(c)
  {
    var n := c.lastSequence + 1;
    if n !in c.inbox then Ok(c)
    else
      var r := ApplyEvent(spec, c, c.inbox[n]);
      if r.Err? then r
      else
        var d := r.value.(lastSequence := n, applied := r.value.applied + [c.inbox[n]]);
        assert n in Buffered(c) && n !in Buffered(d) && Buffered(d) <= Buffered(c);
        Drain(spec, d)
  }

  /** `receipt`: one transaction, rolled back as a whole when an event cannot be applied. */
  function Receive(spec: Spec, c: Controller, sequence: nat, e: Event): Result<Controller> {
    if sequence in c.inbox then if c.inbox[sequence] == e then Ok(c) else Err("OWNER_RECEIPT_CONFLICT")
    else Drain(spec, c.(inbox := c.inbox[sequence := e]))
  }

  /** What the environment contributes to a permit request: prices, sizes, and the verdict of goal and progress
      checks. */
  datatype Terms = Terms(price: Option<Money.Price>, messageBytes: nat, goalBound: bool, denied: Option<string>)

  predicate UnknownOutcome(spec: Spec, c: Controller) {
    exists p :: 0 <= p < |c.ledger.permits| && OpenCall(spec, c.ledger.permits[p])
  }

  predicate OpenCall(spec: Spec, p: Ledger.Permit) {
    BelongsTo(spec, p) && Ledger.Pending(p) && p.response.None?
  }

  predicate Unreviewed(spec: Spec, p: Ledger.Permit) {
    BelongsTo(spec, p) && p.state.Unknown? && p.response.None?
  }

  /** `assertWorkerIntent`. */
  function IntentRefusal(c: Controller, denied: Option<string>): Option<string> {
    if c.ledger.maintenance then Some("EVOLUTION_QUIESCED")
    else if !c.ledger.on then Some("OWNER_AUTOMATION_OFF")
    else if Ledger.HoldReason(c.ledger).Some? then Ledger.HoldReason(c.ledger)
    else if denied.Some? then denied
    else if !Active(c.attempt) then Some("OWNER_ATTEMPT_STALE")
    else None
  }

  /** The scope check of a worker's permit. */
  function ScopeRefusal(spec: Spec, c: Controller): Option<string> {
    if !c.attempt.DispatchPending? && !c.attempt.Running? then Some("OWNER_ATTEMPT_STALE")
    else if exists p ::
        0 <= p < |c.ledger.permits| && Unreviewed(spec, c.ledger.permits[p]) then Some("OWNER_OUTCOME_REVIEW_REQUIRED")
    else None
  }

  function CallFor(spec: Spec, c: Controller, step: nat, history: seq<nat>, t: Terms): Ledger.Call {
    Ledger.Call(Some(SourceOf(spec, step)), Ledger.StepRequest(step, history), t.price, t.messageBytes, spec.maxOutput,
        t.goalBound, ScopeRefusal(spec, c))
  }

  /** `execute` of an operation whose row exists: it is answered from the row, or by the flight still under way. */
  function RepeatedCommand(c: Controller, rpc: Rpc, id: ToolId, tool: Tool, args: nat): CommandAnswer
    requires id in c.commands
  {
    var row := c.commands[id];
    if row.tool != tool || row.args != args then Denied("IDEMPOTENCY_CONFLICT")
    else if row.result.Some? then Stored(row.result.value)
    else if rpc == AskCommand(id) then InProgress
    else Denied("TOOL_OUTCOME_UNKNOWN")
  }

  datatype Authorization = Authorization(c: Controller, permit: nat)

  predicate FirstReusable(c: Controller, step: nat) {
    step == 0 && c.firstPermit < |c.ledger.permits| && Ledger.Pending(c.ledger.permits[c.firstPermit])
        && c.firstPermit !in c.grants
  }

  /** `authorizeModel`. The prelaunch permit is used while no grant shows that it may have reached the provider. */
  function Authorize(spec: Spec, c: Controller, step: nat, history: seq<nat>, t: Terms): Result<Authorization> {
    if IntentRefusal(c, t.denied).Some? then Err(IntentRefusal(c, t.denied).value)
    else if FirstReusable(c, step) then
      if history != [] then Err("OWNER_WORKER_OPERATION_CONFLICT")
      else
        var p := c.firstPermit;
        Ok(Authorization(c.(ledger := c.ledger.(permits :=
            c.ledger.permits[p := c.ledger.permits[p].(state := Ledger.Sent)]),
                            grants := c.grants[p := Grant(step, c.epoch)]), p))
    else
      var o := Ledger.Prepare(c.ledger, CallFor(spec, c, step, history, t));
      if o.result.Err? then Err(o.result.error)
      else if o.result.value.id in c.grants then Err("SQLITE_CONSTRAINT_PRIMARYKEY")
      else Ok(Authorization(c.(ledger := o.next, grants := c.grants[o.result.value.id := Grant(step, c.epoch)]),
          o.result.value.id))
  }

  // ---- Recovery ----

  predicate SuspendReason(r: string) {
    r in {"OWNER_CONTROLLER_DISCONNECTED", "OWNER_AUTOMATION_OFF", "OWNER_GOAL_PAUSED", "EVOLUTION_QUIESCED",
          "OWNER_COMPANY_BUDGET_REQUIRED", "OWNER_COMPANY_BUDGET_EXHAUSTED", "OWNER_COMPANY_BUDGET_BUSY"}
  }

  /** Whether recovery could read the journal to its end; if not, the last suspension reason it had seen by then. */
  datatype Reading = Readable | Broken(seen: Option<string>)

  function LastSuspension(events: seq<Event>): Option<string> {
    if events == [] then None
    else if events[|events| - 1].SuspensionEvent? then Some(events[|events| - 1].reason)
    else LastSuspension(events[..|events| - 1])
  }

  predicate UnfinishedTool(j: Rows, c: Controller, id: ToolId) {
    id in j.tools && j.tools[id].state.ToolStarted? && !j.tools[id].tool.SaveArtifact?
        && !Receipted(c, id, j.tools[id].tool)
  }

  predicate Receipted(c: Controller, id: ToolId, tool: Tool) {
    id in c.commands && c.commands[id].result.Some? && c.commands[id].result.value.id == id
        && c.commands[id].result.value.tool == tool
  }

  predicate UnknownTool(j: Rows, c: Controller) {
    exists id :: id in j.tools && UnfinishedTool(j, c, id)
  }

  /** The state and reason recovery would record for an attempt that is still active. */
  function Diagnosis(spec: Spec, j: Rows, c: Controller, reading: Reading): (AttemptState, string) {
    var firstGranted := c.firstPermit in c.grants;
    var unread := reading.Broken? || !j.file.Ready?;
    var unknownTool := reading.Readable? && UnknownTool(j, c);
    var seen := if reading.Readable? then LastSuspension(j.events) else reading.seen;
    var safe := reading.Readable? && !j.file.Absent? && j.terminal.None?;
    if unread && !firstGranted && !unknownTool && !UnknownOutcome(spec, c)
        then (Failed, "OWNER_WORKER_DIED_BEFORE_START")
    else if UnknownOutcome(spec, c) then (Blocked, "CALL_OUTCOME_UNKNOWN")
    else if unknownTool then (Blocked, "TOOL_OUTCOME_UNKNOWN")
    else if (seen.Some? && SuspendReason(seen.value)) || safe then
      (Suspended, if seen.Some? then seen.value else "OWNER_CONTROLLER_DISCONNECTED")
    else (Blocked, "OWNER_WORKER_FAILED")
  }

  /** The last part of `recover`: record the stop of this epoch once, and release the launch. */
  function Decide(spec: Spec, j: Rows, c: Controller, reading: Reading): Controller {
    var d := Diagnosis(spec, j, c, reading);
    var e := if c.epoch in c.stops || !Active(c.attempt) then c
             else Observe(c, d.0, d.1).(stops := c.stops + {c.epoch}, blind := reading.Broken?);
    e.(launch := if e.attempt.Suspended? then LaunchSuspended else Exited)
  }
}
