/** The moves of the worker protocol, and what every run of them keeps. */
module WorkerRuns {
  import opened Wrappers
  import opened AttemptStates
  import opened Journal
  import opened WorkerProtocol
  import Ledger

  datatype Move =
    // the worker
    | OpenJournal
    | AppendStarted
    | OpenStep
    | MarkLost
    | Retry
    | Ask
    | MarkSent
    | CallProvider
    | ProviderAnswers(response: Ledger.Response)
    | ProviderRefuses
    | ProviderFails
    | Record
    | NextStep(entries: seq<nat>)
    | BeginCorrection(entries: seq<nat>)
    | Correct
    | PrepareTool(id: ToolId, tool: Tool, args: nat)
    | BeginTool(id: ToolId)
    | RunLocal(success: bool, output: nat)
    | RecordTool
    | DenyTool(id: ToolId)
    | FetchReceipt(id: ToolId)
    | FinishRun(kind: AttemptState, why: string)
    | SuspendRun(why: string)
    | Crash
    | Acknowledge(sequence: nat)
    // the controller
    | Deliver(sequence: nat)
    | AnswerPermit(terms: Terms)
    | AcceptCommand
    | RefuseCommand
    | CommitEffect
    | CommitReceipt(success: bool, output: nat)
    | Start(denied: Option<string>)
    | WorkerReady(refused: bool)
    | ControllerRestart
    | RecoverRow(step: nat)
    | RecoverUnsent(step: nat, permit: nat)
    | RecoverFirst
    | Conclude(reading: Reading)
    | Retire(kind: AttemptState, why: string)
    // everyone else who writes the company's money rows
    | Elsewhere(op: Ledger.Op)

  // ---- Groups of moves ----

  predicate ModelMove(m: Move) {
    m.OpenStep? || m.MarkLost? || m.Retry? || m.Ask? || m.MarkSent? || m.CallProvider? || m.ProviderAnswers?
        || m.ProviderRefuses?
    || m.ProviderFails? || m.Record? || m.NextStep? || m.BeginCorrection?
  }

  predicate WorkerToolMove(m: Move) {
    m.PrepareTool? || m.BeginTool? || m.RunLocal? || m.RecordTool? || m.DenyTool? || m.FetchReceipt?
  }

  predicate ToolMove(m: Move) {
    WorkerToolMove(m) || m.OpenJournal? || m.Crash? || m.Acknowledge? || m.AcceptCommand? || m.RefuseCommand?
        || m.CommitEffect? || m.CommitReceipt?
  }

  predicate LeavingMove(m: Move) {
    m.AppendStarted? || m.Correct? || m.FinishRun? || m.SuspendRun?
  }

  predicate RecoveryMove(m: Move) {
    m.RecoverRow? || m.RecoverUnsent? || m.RecoverFirst? || m.Conclude?
  }

  // ---- Worker moves ----

  predicate AtCall(s: System, k: nat) {
    s.w.Idle? && k in s.j.models
  }

  /** The tables are created first, the identity row after them: a process may die in between. */
  function OnOpenJournal(s: System): System {
    if !s.w.Booting? then s
    else if s.j.file.Absent? then s.(j := s.j.(file := Blank))
    else s.(j := s.j.(file := Ready), w := Idle)
  }

  function OnNote(s: System): System {
    if s.w.Idle? then s.(j := Append(s.j, StartedEvent)) else s
  }

  function OnCrash(s: System): System {
    s.(w := Down)
  }

  function OnAcknowledge(s: System, n: nat): System {
    if n in s.c.inbox then s.(j := s.j.(acked := s.j.acked + {n})) else s
  }

  function OnStep(s: System): System {
    if s.w.Idle? && s.j.terminal.None? && s.j.nextStep < s.spec.maxSteps
        && OpenModel(s.j, s.j.nextStep, s.j.history).Ok?
    then s.(j := OpenModel(s.j, s.j.nextStep, s.j.history).value) else s
  }

  /** A row found SENT by a process that has not just sent it: its outcome cannot be known. */
  function OnMarkLost(s: System): System {
    if AtCall(s, s.j.nextStep) then s.(j := ModelFailure(s.j, s.j.nextStep, false)) else s
  }

  function OnRetry(s: System): System {
    var k := s.j.nextStep;
    if AtCall(s, k) && s.j.models[k].attempts <= s.spec.retries && RetryNotSent(s.j, k).Ok?
    then s.(j := RetryNotSent(s.j, k).value) else s
  }

  function OnAsk(s: System): System {
    var k := s.j.nextStep;
    if AtCall(s, k) && s.j.models[k].state.Prepared? then
      s.(w := Asking(k), rpc := if s.connected then AskPermit(k, s.j.models[k].request) else NoRpc)
    else s
  }

  function OnMarkSent(s: System): System {
    if s.w.Permitted? && Journal.ModelSent(s.j, s.w.step, s.w.permit).Ok?
    then s.(j := Journal.ModelSent(s.j, s.w.step, s.w.permit).value, w := Armed(s.w.step, s.w.permit)) else s
  }

  function OnCallProvider(s: System): System {
    if s.w.Armed? && s.w.step in s.j.models then
      s.(w := Calling(s.w.step, s.w.permit),
         calls := s.calls + [ProviderCall(s.w.step, s.w.permit, s.j.models[s.w.step].attempts, InDoubt)])
    else s
  }

  /** The history records what the provider's answer proves about the call in progress, the last one made. */
  function Judge(calls: seq<ProviderCall>, v: Verdict): seq<ProviderCall> {
    if calls == [] then calls else calls[|calls| - 1 := calls[|calls| - 1].(verdict := v)]
  }

  function OnAnswer(s: System, response: Ledger.Response): System {
    if s.w.Calling? then s.(w := Answered(s.w.step, s.w.permit, response), calls := Judge(s.calls, Delivered)) else s
  }

  function OnRefusal(s: System): System {
    if s.w.Calling? then s.(w := Refused(s.w.step, s.w.permit), calls := Judge(s.calls, ProvedUnsent)) else s
  }

  function OnFailure(s: System): System {
    if s.w.Calling? then s.(w := Lost(s.w.step, s.w.permit)) else s
  }

  function OnRecord(s: System): System {
    match s.w
    case Answered(k, _, response) =>
      if ModelResponse(s.j, k, response).Ok? then s.(j := ModelResponse(s.j, k, response).value, w := Idle) else s
    case Refused(k, _) => s.(j := ModelFailure(s.j, k, true), w := Idle)
    case Lost(k, _) => s.(j := ModelFailure(s.j, k, false), w := Idle)
    case _ => s
  }

  function OnNextStep(s: System, entries: seq<nat>): System {
    var k := s.j.nextStep;
    if AtCall(s, k) && s.j.models[k].state.Responded? && s.j.terminal.None?
    then s.(j := Advance(s.j, k + 1, s.j.history + entries)) else s
  }

  /** An answer whose format is wrong is sent back with the next step, once. */
  function OnBeginCorrection(s: System, entries: seq<nat>): System {
    var k := s.j.nextStep;
    if AtCall(s, k) && s.j.models[k].state.Responded? && s.j.terminal.None? && k + 1 < s.spec.maxSteps
        && CorrectionEvent !in s.j.events
    then s.(j := Advance(s.j, k + 1, s.j.history + entries), w := Correcting) else s
  }

  /** The event that says so is a transaction of its own: a process that dies before it has corrected unnoticed. */
  function OnCorrect(s: System): System {
    if s.w.Correcting? then s.(j := Append(s.j, CorrectionEvent), w := Idle) else s
  }

  function OnPrepareTool(s: System, id: ToolId, tool: Tool, args: nat): System {
    if AtCall(s, s.j.nextStep) && s.j.models[s.j.nextStep].state.Responded? && id.step == s.j.nextStep
        && OpenTool(s.j, id, tool, args).Ok?
    then s.(j := OpenTool(s.j, id, tool, args).value) else s
  }

  /** Only the internal file writer may be run again once started. */
  function OnBeginTool(s: System, id: ToolId): System {
    if !s.w.Idle? || id !in s.j.tools then s
    else if s.j.tools[id].state.ToolStarted? && s.j.tools[id].tool.SaveArtifact? then s.(w := RunningTool(id))
    else if Journal.StartTool(s.j, id).Ok? then s.(j := Journal.StartTool(s.j, id).value, w := RunningTool(id))
    else s
  }

  function OnRunLocal(s: System, success: bool, output: nat): System {
    if !s.w.RunningTool? || s.w.id !in s.j.tools then s
    else
      var id, tool := s.w.id, s.j.tools[s.w.id].tool;
      if tool.Command? then s.(w := Commanding(id), rpc := if s.connected then AskCommand(id) else NoRpc)
      else s.(w := ToolFinished(id, ToolResult(id, tool, success, output)), effects := s.effects + multiset{id})
  }

  function OnRecordTool(s: System): System {
    if s.w.ToolFinished? && FinishTool(s.j, s.w.id, s.w.result).Ok?
    then s.(j := FinishTool(s.j, s.w.id, s.w.result).value, w := Idle) else s
  }

  /** An exhausted missing fact fails the tool without running it. */
  function OnDenyTool(s: System, id: ToolId): System {
    if s.w.Idle? && id in s.j.tools
        && (s.j.tools[id].state.ToolPrepared? || (s.j.tools[id].state.ToolStarted? && s.j.tools[id].tool.SaveArtifact?))
    then s.(j := FinishTool(s.j, id, ToolResult(id, s.j.tools[id].tool, false, 0)).value) else s
  }

  function OnFetchReceipt(s: System, id: ToolId): System {
    if s.w.Idle? && s.connected && id in s.j.tools && s.j.tools[id].state.ToolStarted?
        && !s.j.tools[id].tool.SaveArtifact?
       && Receipted(s.c, id, s.j.tools[id].tool)
    then s.(j := FinishTool(s.j, id, s.c.commands[id].result.value).value) else s
  }

  /** Errors can only surface where the worker awaits something or decides. */
  predicate MayLeave(w: Phase) {
    w.Idle? || w.Asking? || w.Permitted? || w.RunningTool? || w.Commanding? || w.ToolFinished?
  }

  function OnFinish(s: System, kind: AttemptState, why: string): System {
    if MayLeave(s.w) && s.rpc.NoRpc? && !Active(kind) then s.(j := Journal.Finish(s.j, kind, why), w := Down) else s
  }

  function OnSuspend(s: System, why: string): System {
    if MayLeave(s.w) && SuspendReason(why) then s.(j := Journal.Suspend(s.j, why), w := Down) else s
  }

  // ---- Controller moves ----

  function OnDeliver(s: System, n: nat): System {
    if 1 <= n <= |s.j.events| && Receive(s.spec, s.c, n, s.j.events[n - 1]).Ok?
    then s.(c := Receive(s.spec, s.c, n, s.j.events[n - 1]).value) else s
  }

  /** The answer reaches the worker only if it is still waiting for it. */
  function OnAnswerPermit(s: System, t: Terms): System {
    if !s.rpc.AskPermit? then s
    else
      var a := Authorize(s.spec, s.c, s.rpc.step, s.rpc.history, t);
      s.(rpc := NoRpc,
         c := if a.Ok? then a.value.c else s.c,
         w := if s.w != Asking(s.rpc.step) then s.w else if a.Ok? then Permitted(s.rpc.step, a.value.permit) else Idle)
  }

  /** `execute` inserts the row of an operation it has never seen. */
  function OnAcceptCommand(s: System): System {
    if s.rpc.AskCommand? && s.rpc.id in s.j.tools && s.rpc.id !in s.c.commands
    then s.(c := s.c.(commands := s.c.commands[s.rpc.id :=
        CommandRow(s.j.tools[s.rpc.id].tool, s.j.tools[s.rpc.id].args, false, None)])) else s
  }

  /** A command that is not permitted leaves no row. */
  function OnRefuseCommand(s: System): System {
    if s.rpc.AskCommand? && s.rpc.id !in s.c.commands
    then s.(rpc := NoRpc, w := if s.w == Commanding(s.rpc.id) then Idle else s.w) else s
  }

  predicate InFlight(s: System) {
    s.rpc.AskCommand? && s.rpc.id in s.c.commands && s.c.commands[s.rpc.id].result.None?
  }

  /** The effect of an asynchronous handler precedes its receipt. */
  function OnCommitEffect(s: System): System {
    if InFlight(s) && s.c.commands[s.rpc.id].tool.Command? && !s.c.commands[s.rpc.id].tool.synchronous
        && !s.c.commands[s.rpc.id].effect then
      s.(c := s.c.(commands := s.c.commands[s.rpc.id := s.c.commands[s.rpc.id].(effect := true)]),
          effects := s.effects + multiset{s.rpc.id})
    else s
  }

  /** The receipt; a synchronous handler's effect is committed in the same transaction, and undone when it throws. */
  function OnCommitReceipt(s: System, success: bool, output: nat): System {
    if !InFlight(s) then s
    else
      var id := s.rpc.id;
      var row, result := s.c.commands[id], ToolResult(id, s.c.commands[id].tool, success, output);
      if !row.tool.Command? || (!row.tool.synchronous && success && !row.effect) then s
      else
        var now := row.tool.synchronous && success;
        s.(c := s.c.(commands := s.c.commands[id := row.(effect := row.effect || now, result := Some(result))]),
           effects := if now then s.effects + multiset{id} else s.effects,
           rpc := NoRpc,
           w := if s.w == Commanding(id) then ToolFinished(id, result) else s.w)
  }

  function OnStart(s: System, denied: Option<string>): System {
    if s.w.Down? && (s.c.launch.LaunchReady? || s.c.launch.LaunchSuspended?) && s.rpc.NoRpc?
        && IntentRefusal(s.c, denied).None? then
      s.(c := s.c.(launch := Starting, epoch := s.c.epoch + 1), w := Booting, connected := true)
    else s
  }

  /** The launch is marked first; the start is then refused when another attempt has taken the world meanwhile. */
  function OnReady(s: System, refused: bool): System {
    if s.connected && s.c.launch.Starting? then
      s.(c := (if refused then s.c else Observe(s.c, Running, "")).(launch := LaunchRunning))
    else s
  }

  /** An end recorded by someone other than the worker: a cancelled or abandoned attempt, a recovery that failed. */
  function OnRetire(s: System, kind: AttemptState, why: string): System {
    if Active(kind) then s else s.(c := Observe(s.c, kind, why))
  }

  function OnControllerRestart(s: System): System {
    s.(c := s.c.(ledger := Ledger.Restart(s.c.ledger)), rpc := NoRpc, connected := false)
  }

  /** `recover` acts only on a dead worker whose messages are all answered or lost. */
  predicate MayRecover(s: System) {
    s.w.Down? && s.rpc.NoRpc? && !s.c.launch.LaunchReady?
  }

  function OnRecoverRow(s: System, k: nat): System {
    if MayRecover(s) && k in s.j.models && s.j.models[k].permit.Some? && s.j.models[k].response.None? then
      s.(c := s.c.(ledger := Ledger.Fail(s.c.ledger, s.j.models[k].permit.value, s.j.models[k].state.CallNotSent?)))
    else s
  }

  /** The grant of an operation that was never marked SENT. */
  predicate Unmarked(j: Rows, c: Controller, k: nat, p: nat) {
    && k in j.models && j.models[k].state.Prepared? && j.models[k].permit.None?
    && p in c.grants && c.grants[p].step == k
    && p < |c.ledger.permits| && c.ledger.permits[p].request == Ledger.StepRequest(k, j.models[k].request)
  }

  /** `recover` fails such a grant as unsent. */
  function OnRecoverUnsent(s: System, k: nat, p: nat): System {
    if MayRecover(s) && Unmarked(s.j, s.c, k, p) then s.(c := s.c.(ledger := Ledger.Fail(s.c.ledger, p, true))) else s
  }

  function OnRecoverFirst(s: System): System {
    if MayRecover(s) && s.c.firstPermit !in s.c.grants
        then s.(c := s.c.(ledger := Ledger.Fail(s.c.ledger, s.c.firstPermit, true))) else s
  }

  function OnConclude(s: System, reading: Reading): System {
    if MayRecover(s) then s.(c := Decide(s.spec, s.j, s.c, reading)) else s
  }

  /** Operations on money rows that are not this attempt's, and the owner's own decisions on any row. */
  predicate Foreign(s: System, op: Ledger.Op) {
    match op
    case PrepareOp(call) => call.source.None? || !call.source.value.kind.CompanyWorker?
        || !call.source.value.call.ModelStep? || call.source.value.call.attempt != s.spec.attempt
    case RespondOp(id, _) => id < |s.c.ledger.permits| && !BelongsTo(s.spec, s.c.ledger.permits[id])
    case FailOp(id, _) => id < |s.c.ledger.permits| && !BelongsTo(s.spec, s.c.ledger.permits[id])
    case RestartOp => false
    case _ => true
  }

  function OnElsewhere(s: System, op: Ledger.Op): System {
    if Foreign(s, op) then s.(c := s.c.(ledger := Ledger.Step(s.c.ledger, op))) else s
  }

  // ---- All moves: one that is not enabled changes nothing ----

  function ModelNext(s: System, m: Move): System {
    match m
    case OpenStep => OnStep(s)
    case MarkLost => OnMarkLost(s)
    case Retry => OnRetry(s)
    case Ask => OnAsk(s)
    case MarkSent => OnMarkSent(s)
    case CallProvider => OnCallProvider(s)
    case ProviderAnswers(response) => OnAnswer(s, response)
    case ProviderRefuses => OnRefusal(s)
    case ProviderFails => OnFailure(s)
    case Record => OnRecord(s)
    case NextStep(entries) => OnNextStep(s, entries)
    case BeginCorrection(entries) => OnBeginCorrection(s, entries)
    case _ => s
  }

  function ToolNext(s: System, m: Move): System {
    match m
    case PrepareTool(id, tool, args) => OnPrepareTool(s, id, tool, args)
    case BeginTool(id) => OnBeginTool(s, id)
    case RunLocal(success, output) => OnRunLocal(s, success, output)
    case RecordTool => OnRecordTool(s)
    case DenyTool(id) => OnDenyTool(s, id)
    case FetchReceipt(id) => OnFetchReceipt(s, id)
    case _ => s
  }

  function ProcessNext(s: System, m: Move): System {
    match m
    case OpenJournal => OnOpenJournal(s)
    case Crash => OnCrash(s)
    case Acknowledge(n) => OnAcknowledge(s, n)
    case AcceptCommand => OnAcceptCommand(s)
    case RefuseCommand => OnRefuseCommand(s)
    case CommitEffect => OnCommitEffect(s)
    case CommitReceipt(success, output) => OnCommitReceipt(s, success, output)
    case _ => s
  }

  function LeavingNext(s: System, m: Move): System {
    match m
    case AppendStarted => OnNote(s)
    case Correct => OnCorrect(s)
    case FinishRun(kind, why) => OnFinish(s, kind, why)
    case SuspendRun(why) => OnSuspend(s, why)
    case _ => s
  }

  function RecoveryNext(s: System, m: Move): System {
    match m
    case Deliver(n) => OnDeliver(s, n)
    case RecoverRow(k) => OnRecoverRow(s, k)
    case RecoverUnsent(k, p) => OnRecoverUnsent(s, k, p)
    case RecoverFirst => OnRecoverFirst(s)
    case Conclude(reading) => OnConclude(s, reading)
    case _ => s
  }

  function ControllerNext(s: System, m: Move): System {
    match m
    case AnswerPermit(t) => OnAnswerPermit(s, t)
    case Start(denied) => OnStart(s, denied)
    case WorkerReady(refused) => OnReady(s, refused)
    case ControllerRestart => OnControllerRestart(s)
    case Retire(kind, why) => OnRetire(s, kind, why)
    case Elsewhere(op) => OnElsewhere(s, op)
    case _ => s
  }

  function Next(s: System, m: Move): System {
    if ModelMove(m) then ModelNext(s, m)
    else if WorkerToolMove(m) then ToolNext(s, m)
    else if ToolMove(m) then ProcessNext(s, m)
    else if LeavingMove(m) then LeavingNext(s, m)
    else if RecoveryMove(m) || m.Deliver? then RecoveryNext(s, m)
    else ControllerNext(s, m)
  }

  function Run(s: System, moves: seq<Move>): System {
    if moves == [] then s else Next(Run(s, moves[..|moves| - 1]), moves[|moves| - 1])
  }

  lemma {:induction false} RunOfParts(s: System, xs: seq<Move>, ys: seq<Move>)
    ensures Run(s, xs + ys) == Run(Run(s, xs), ys)
  {
    hide Next;
    if ys == [] {
      assert xs + ys == xs;
    } else {
      RunOfParts(s, xs, ys[..|ys| - 1]);
      assert (xs + ys)[..|xs + ys| - 1] == xs + ys[..|ys| - 1];
    }
  }

  /** A claimed attempt whose first permit has been prepared, in whatever state the company's money is. */
  ghost predicate Created(s: System) {
    && s.j == NO_ROWS && s.w.Down? && s.rpc.NoRpc? && s.calls == [] && s.effects == multiset{}
    && s.spec.retries <= 1
    && Ledger.Inv(s.c.ledger)
    && s.c.firstPermit < |s.c.ledger.permits|
    && Bound(s.spec, s.c, s.c.firstPermit, 0) && s.c.ledger.permits[s.c.firstPermit].request
        == Ledger.StepRequest(0, [])
    && (forall p :: 0 <= p < |s.c.ledger.permits| && BelongsTo(s.spec, s.c.ledger.permits[p]) ==> p == s.c.firstPermit)
    && s.c.ledger.permits[s.c.firstPermit].response.None?
    && s.c.grants == map[] && s.c.launch.LaunchReady? && s.c.epoch == 0 && s.c.attempt.DispatchPending?
    && s.c.stops == {} && !s.c.blind && s.c.inbox == map[] && s.c.lastSequence == 0 && s.c.applied == []
        && s.c.commands == map[]
  }
}
