/** Tools and stops: at-most-once effects, durable receipts, and what a suspended attempt leaves behind. */
module WorkerTools {
  import opened Wrappers
  import opened AttemptStates
  import opened Journal
  import opened WorkerProtocol
  import opened WorkerRuns
  import opened WorkerSafety
  import opened WorkerController
  import Ledger

  // ---- Tools ----

  /** A command's row: a synchronous effect is committed exactly when a receipt of success is. */
  ghost predicate CommandOk(tools: map<ToolId, ToolRow>, effects: multiset<ToolId>, id: ToolId, row: CommandRow) {
    && id in tools && tools[id].tool == row.tool && tools[id].args == row.args && row.tool.Command?
        && !tools[id].state.ToolPrepared?
    && effects[id] == (if row.effect then 1 else 0)
    && (row.result.Some? ==>
        row.result.value.id == id && row.result.value.tool == row.tool && (row.result.value.success ==> row.effect))
    && (row.tool.synchronous ==> (row.effect <==> row.result.Some? && row.result.value.success))
    && (tools[id].state.ToolDone? ==> tools[id].result == row.result)
  }

  ghost predicate ToolOk(s: System, id: ToolId)
    requires id in s.j.tools
  {
    var row := s.j.tools[id];
    && (row.state.ToolPrepared? ==> s.effects[id] == 0 && id !in s.c.commands)
    && (row.state.ToolDone? <==> row.result.Some?)
    && (row.tool.Local? ==> s.effects[id] <= 1)
    && (row.tool.Command? && id !in s.c.commands ==> s.effects[id] == 0)
  }

  ghost predicate Started(s: System, id: ToolId) {
    id in s.j.tools && s.j.tools[id].state.ToolStarted?
  }

  ghost predicate ToolInv(s: System) {
    && (forall id :: s.effects[id] > 0 ==> id in s.j.tools)
    && (forall id :: id in s.j.tools ==> ToolOk(s, id))
    && (forall id :: id in s.c.commands ==> CommandOk(s.j.tools, s.effects, id, s.c.commands[id]))
    && (s.rpc.AskCommand? ==>
        Started(s, s.rpc.id) && s.j.tools[s.rpc.id].tool.Command? && (s.w.Down? || s.w == Commanding(s.rpc.id)))
    && match s.w
       case RunningTool(id) => Started(s, id) && (!s.j.tools[id].tool.SaveArtifact? ==>
           s.effects[id] == 0 && id !in s.c.commands)
       case Commanding(id) => Started(s, id) && s.j.tools[id].tool.Command?
       case ToolFinished(id, r) =>
         Started(s, id) && (s.j.tools[id].tool.Command? ==> id in s.c.commands && s.c.commands[id].result == Some(r))
       case _ => true
  }

  /** Moves that touch neither tool rows, nor effects, nor what the worker is doing with a tool. */
  lemma ToolsUntouched(s: System, t: System)
    requires ToolInv(s)
    requires t.j.tools == s.j.tools && t.c.commands == s.c.commands && t.effects == s.effects
    requires t.rpc == s.rpc || t.rpc.NoRpc? || t.rpc.AskPermit?
    requires s.rpc.AskCommand? && t.rpc == s.rpc ==> t.w == s.w || t.w.Down?
    requires t.w == s.w || (!t.w.RunningTool? && !t.w.Commanding? && !t.w.ToolFinished?)
    ensures ToolInv(t)
  {
    forall id | id in t.j.tools ensures ToolOk(t, id) {
      assert ToolOk(s, id);
    }
  }

  lemma PrepareToolKeepsTools(s: System, id: ToolId, tool: Tool, args: nat)
    requires ToolInv(s)
    ensures ToolInv(OnPrepareTool(s, id, tool, args))
  {
    var t := OnPrepareTool(s, id, tool, args);
    forall i | i in t.j.tools ensures ToolOk(t, i) {
      if i in s.j.tools { assert ToolOk(s, i); }
    }
    forall i | i in t.c.commands ensures CommandOk(t.j.tools, t.effects, i, t.c.commands[i]) {
      assert CommandOk(s.j.tools, s.effects, i, s.c.commands[i]);
    }
  }

  lemma BeginToolKeepsTools(s: System, id: ToolId)
    requires ToolInv(s) && (s.w.Idle? ==> s.rpc.NoRpc?)
    ensures ToolInv(OnBeginTool(s, id))
  {
    var t := OnBeginTool(s, id);
    forall i | i in t.j.tools ensures ToolOk(t, i) {
      assert ToolOk(s, i);
    }
    forall i | i in t.c.commands ensures CommandOk(t.j.tools, t.effects, i, t.c.commands[i]) {
      assert CommandOk(s.j.tools, s.effects, i, s.c.commands[i]);
    }
  }

  /** A non-artifact tool is run in the one process that marked it started, before any row of it exists elsewhere. */
  lemma RunLocalKeepsTools(s: System, success: bool, output: nat)
    requires ToolInv(s) && (s.w.RunningTool? ==> s.rpc.NoRpc?)
    ensures ToolInv(OnRunLocal(s, success, output))
  {
    var t := OnRunLocal(s, success, output);
    forall i | i in t.j.tools ensures ToolOk(t, i) {
      assert ToolOk(s, i);
    }
    forall i | i in t.c.commands ensures CommandOk(t.j.tools, t.effects, i, t.c.commands[i]) {
      assert CommandOk(s.j.tools, s.effects, i, s.c.commands[i]);
    }
  }

  lemma FinishKeepsTools(s: System, t: System, id: ToolId, result: ToolResult)
    requires ToolInv(s) && FinishTool(s.j, id, result) == Ok(t.j) && t == s.(j := t.j, w := Idle) && s.rpc.NoRpc?
    requires id in s.c.commands ==> s.c.commands[id].result == Some(result)
    ensures ToolInv(t)
  {
    forall i | i in t.j.tools ensures ToolOk(t, i) {
      assert ToolOk(s, i);
    }
    forall i | i in t.c.commands ensures CommandOk(t.j.tools, t.effects, i, t.c.commands[i]) {
      assert CommandOk(s.j.tools, s.effects, i, s.c.commands[i]);
    }
  }

  lemma ResultsKeepTools(s: System, id: ToolId)
    requires ToolInv(s) && (s.w.Idle? || s.w.ToolFinished? ==> s.rpc.NoRpc?)
    ensures ToolInv(OnRecordTool(s)) && ToolInv(OnDenyTool(s, id)) && ToolInv(OnFetchReceipt(s, id))
  {
    if OnRecordTool(s) != s {
      assert s.w.id in s.c.commands ==> CommandOk(s.j.tools, s.effects, s.w.id, s.c.commands[s.w.id]);
      FinishKeepsTools(s, OnRecordTool(s), s.w.id, s.w.result);
    }
    if OnDenyTool(s, id) != s {
      assert ToolOk(s, id) && (id in s.c.commands ==> CommandOk(s.j.tools, s.effects, id, s.c.commands[id]));
      FinishKeepsTools(s, OnDenyTool(s, id), id, ToolResult(id, s.j.tools[id].tool, false, 0));
    }
    if OnFetchReceipt(s, id) != s {
      FinishKeepsTools(s, OnFetchReceipt(s, id), id, s.c.commands[id].result.value);
    }
  }

  /** The row of the command in flight changes, together with its effect. */
  lemma CommandRowKeepsTools(s: System, t: System, id: ToolId)
    requires ToolInv(s) && s.rpc == AskCommand(id)
    requires t == s.(c := s.c.(commands := t.c.commands), effects := t.effects, rpc := t.rpc, w := t.w)
    requires id in t.c.commands && t.c.commands == s.c.commands[id := t.c.commands[id]]
    requires forall i :: i != id ==> t.effects[i] == s.effects[i]
    requires CommandOk(t.j.tools, t.effects, id, t.c.commands[id])
    requires (t.rpc == s.rpc && t.w == s.w)
        || (t.rpc.NoRpc? && (t.w == s.w
        || (s.w == Commanding(id) && t.w.ToolFinished? && t.w.id == id && t.c.commands[id].result == Some(t.w.result))))
    ensures ToolInv(t)
  {
    forall i | i in t.j.tools ensures ToolOk(t, i) {
      assert ToolOk(s, i);
    }
    forall i | i in t.c.commands ensures CommandOk(t.j.tools, t.effects, i, t.c.commands[i]) {
      if i != id { assert CommandOk(s.j.tools, s.effects, i, s.c.commands[i]); }
    }
    forall i | t.effects[i] > 0 ensures i in t.j.tools {
      if i != id { assert s.effects[i] > 0; }
    }
  }

  lemma AcceptKeepsTools(s: System)
    requires ToolInv(s)
    ensures ToolInv(OnAcceptCommand(s)) && ToolInv(OnCommitEffect(s))
  {
    if OnAcceptCommand(s) != s {
      assert ToolOk(s, s.rpc.id);
      CommandRowKeepsTools(s, OnAcceptCommand(s), s.rpc.id);
    }
    if OnCommitEffect(s) != s {
      assert CommandOk(s.j.tools, s.effects, s.rpc.id, s.c.commands[s.rpc.id]);
      CommandRowKeepsTools(s, OnCommitEffect(s), s.rpc.id);
    }
  }

  lemma ReceiptKeepsTools(s: System, success: bool, output: nat)
    requires ToolInv(s)
    ensures ToolInv(OnCommitReceipt(s, success, output))
  {
    if OnCommitReceipt(s, success, output) != s {
      assert CommandOk(s.j.tools, s.effects, s.rpc.id, s.c.commands[s.rpc.id]);
      CommandRowKeepsTools(s, OnCommitReceipt(s, success, output), s.rpc.id);
    }
  }

  lemma WorkerToolMovesKeepTools(s: System, m: Move)
    requires ToolInv(s) && WorkerToolMove(m)
    requires s.w.Idle? || s.w.RunningTool? || s.w.ToolFinished? ==> s.rpc.NoRpc?
    ensures ToolInv(Next(s, m))
  {
    hide ModelNext, ProcessNext, LeavingNext, RecoveryNext, ControllerNext, ToolInv, OnPrepareTool, OnBeginTool,
        OnRunLocal, OnRecordTool, OnDenyTool, OnFetchReceipt;
    match m
    case PrepareTool(id, tool, args) => PrepareToolKeepsTools(s, id, tool, args);
    case BeginTool(id) => BeginToolKeepsTools(s, id);
    case RunLocal(success, output) => RunLocalKeepsTools(s, success, output);
    case RecordTool => ResultsKeepTools(s, ToolId(0, 0));
    case DenyTool(id) => ResultsKeepTools(s, id);
    case FetchReceipt(id) => ResultsKeepTools(s, id);
  }

  predicate ControllerToolMove(m: Move) {
    m.AcceptCommand? || m.CommitEffect? || m.CommitReceipt? || m.Deliver? || m.AnswerPermit? || m.Conclude?
  }

  lemma ControllerToolMovesKeepTools(s: System, m: Move)
    requires ToolInv(s) && ControllerToolMove(m)
    ensures ToolInv(Next(s, m))
  {
    hide ToolInv, OnAcceptCommand, OnCommitEffect, OnCommitReceipt, OnDeliver, OnAnswerPermit, OnConclude, ModelNext,
        ToolNext, LeavingNext;
    match m
    case AcceptCommand => AcceptKeepsTools(s);
    case CommitEffect => AcceptKeepsTools(s);
    case CommitReceipt(success, output) => ReceiptKeepsTools(s, success, output);
    case Deliver(n) => DeliverKeepsTools(s, n);
    case AnswerPermit(t) => AnswerKeepsTools(s, t);
    case Conclude(reading) => ConcludeKeepsTools(s, reading);
  }

  /** A call in progress is not a tool in progress. */
  ghost predicate LeavesTools(s: System, t: System) {
    && t.j.tools == s.j.tools && t.c == s.c && t.effects == s.effects
    && (t == s || (!s.w.Down? && !s.w.Commanding?))
    && (t.w == s.w || !(t.w.RunningTool? || t.w.Commanding? || t.w.ToolFinished?))
    && (t.rpc == s.rpc || !t.rpc.AskCommand?)
  }

  lemma CallMovesLeaveTools(s: System, m: Move)
    requires ModelMove(m) && !m.OpenStep? && !m.MarkLost? && !m.Retry? && !m.Ask? && !m.NextStep?
        && !m.BeginCorrection?
    ensures LeavesTools(s, Next(s, m))
  {
    hide ToolNext, ProcessNext, LeavingNext, RecoveryNext, ControllerNext;
  }

  lemma RowMovesLeaveTools(s: System, m: Move)
    requires m.OpenStep? || m.MarkLost? || m.Retry? || m.Ask? || m.NextStep? || m.BeginCorrection?
    ensures LeavesTools(s, Next(s, m))
  {
    hide ToolNext, ProcessNext, LeavingNext, RecoveryNext, ControllerNext;
  }

  lemma ModelMovesKeepTools(s: System, m: Move)
    requires ToolInv(s) && PhaseInv(s) && ModelMove(m)
    ensures ToolInv(Next(s, m))
  {
    hide ToolInv, Next;
    if m.OpenStep? || m.MarkLost? || m.Retry? || m.Ask? || m.NextStep? || m.BeginCorrection? {
      RowMovesLeaveTools(s, m);
    } else {
      CallMovesLeaveTools(s, m);
    }
    ToolsUntouched(s, Next(s, m));
  }

  lemma LeavingMovesKeepTools(s: System, m: Move)
    requires ToolInv(s) && PhaseInv(s) && LeavingMove(m)
    ensures ToolInv(Next(s, m))
  {
    hide ToolInv, ModelNext, ToolNext, ProcessNext, RecoveryNext, ControllerNext;
    ToolsUntouched(s, Next(s, m));
  }

  lemma ProcessMovesKeepTools(s: System, m: Move)
    requires ToolInv(s) && PhaseInv(s) && (m.OpenJournal? || m.Crash? || m.Acknowledge? || m.RefuseCommand?)
    ensures ToolInv(Next(s, m))
  {
    hide ToolInv, ModelNext, ToolNext, LeavingNext, RecoveryNext, ControllerNext;
    ToolsUntouched(s, Next(s, m));
  }

  lemma RecoveryMovesKeepTools(s: System, m: Move)
    requires ToolInv(s) && PhaseInv(s) && (m.RecoverRow? || m.RecoverUnsent? || m.RecoverFirst?)
    ensures ToolInv(Next(s, m))
  {
    hide ToolInv, ModelNext, ToolNext, ProcessNext, LeavingNext, ControllerNext, Ledger.Fail;
    ToolsUntouched(s, Next(s, m));
  }

  lemma StartKeepsTools(s: System, denied: Option<string>, refused: bool)
    requires ToolInv(s) && PhaseInv(s)
    ensures ToolInv(OnStart(s, denied)) && ToolInv(OnReady(s, refused))
  {
    hide ToolInv, IntentRefusal;
    ToolsUntouched(s, OnStart(s, denied));
    ToolsUntouched(s, OnReady(s, refused));
  }

  lemma CompanyKeepsTools(s: System, kind: AttemptState, why: string, op: Ledger.Op)
    requires ToolInv(s) && PhaseInv(s)
    ensures ToolInv(OnRetire(s, kind, why)) && ToolInv(OnControllerRestart(s)) && ToolInv(OnElsewhere(s, op))
  {
    hide ToolInv, Ledger.Step, Ledger.Restart;
    ToolsUntouched(s, OnRetire(s, kind, why));
    ToolsUntouched(s, OnControllerRestart(s));
    ToolsUntouched(s, OnElsewhere(s, op));
  }

  lemma LaunchMovesKeepTools(s: System, m: Move)
    requires ToolInv(s) && PhaseInv(s)
    requires m.Start? || m.WorkerReady? || m.ControllerRestart? || m.Retire? || m.Elsewhere?
    ensures ToolInv(Next(s, m))
  {
    hide ToolInv, PhaseInv, ModelNext, ToolNext, ProcessNext, LeavingNext, RecoveryNext, OnStart, OnReady, OnRetire,
      OnControllerRestart, OnElsewhere;
    match m
    case Start(denied) => StartKeepsTools(s, denied, true);
    case WorkerReady(refused) => StartKeepsTools(s, None, refused);
    case Retire(kind, why) => CompanyKeepsTools(s, kind, why, Ledger.RestartOp);
    case ControllerRestart => CompanyKeepsTools(s, Blocked, "", Ledger.RestartOp);
    case Elsewhere(op) => CompanyKeepsTools(s, Blocked, "", op);
  }

  /** Every move keeps the tool invariant. */
  lemma NextKeepsTools(s: System, m: Move)
    requires ToolInv(s) && PhaseInv(s)
    ensures ToolInv(Next(s, m))
  {
    if WorkerToolMove(m) {
      WorkerToolMovesKeepTools(s, m);
    } else if ControllerToolMove(m) {
      ControllerToolMovesKeepTools(s, m);
    } else if ModelMove(m) {
      ModelMovesKeepTools(s, m);
    } else if LeavingMove(m) {
      LeavingMovesKeepTools(s, m);
    } else if ToolMove(m) {
      ProcessMovesKeepTools(s, m);
    } else if RecoveryMove(m) {
      RecoveryMovesKeepTools(s, m);
    } else {
      LaunchMovesKeepTools(s, m);
    }
  }

  lemma AnswerKeepsTools(s: System, t: Terms)
    requires ToolInv(s)
    ensures ToolInv(OnAnswerPermit(s, t))
  {
    if s.rpc.AskPermit? {
      AuthorizeShape(s.spec, s.c, s.rpc.step, s.rpc.history, t);
      ToolsUntouched(s, OnAnswerPermit(s, t));
    }
  }

  lemma AuthorizeShape(spec: Spec, c: Controller, k: nat, history: seq<nat>, t: Terms)
    ensures Authorize(spec, c, k, history, t).Ok? ==>
      var d := Authorize(spec, c, k, history, t).value.c;
      d == c.(ledger := d.ledger, grants := d.grants)
  {
  }

  lemma DeliverKeepsTools(s: System, n: nat)
    requires ToolInv(s)
    ensures ToolInv(OnDeliver(s, n))
  {
    if OnDeliver(s, n) != s {
      DrainKeepsCommands(s.spec, s.c.(inbox := s.c.inbox[n := s.j.events[n - 1]]));
    }
    ToolsUntouched(s, OnDeliver(s, n));
  }

  lemma ConcludeKeepsTools(s: System, reading: Reading)
    requires ToolInv(s)
    ensures ToolInv(OnConclude(s, reading))
  {
    DecideShape(s.spec, s.j, s.c, reading);
    ToolsUntouched(s, OnConclude(s, reading));
  }

  lemma {:induction false} DrainKeepsCommands(spec: Spec, c: Controller)
    requires Drain(spec, c).Ok?
    ensures
      var d := Drain(spec, c).value;
      && d.commands == c.commands && d.inbox == c.inbox && d.stops == c.stops && d.epoch == c.epoch
          && d.launch == c.launch
      && d.blind == c.blind && (d.attempt == c.attempt || Active(c.attempt))
    decreases Buffered(c)
  {
    var n := c.lastSequence + 1;
    if n in c.inbox {
      var a := ApplyEvent(spec, c, c.inbox[n]).value;
      var d := a.(lastSequence := n, applied := a.applied + [c.inbox[n]]);
      assert n in Buffered(c) && n !in Buffered(d) && Buffered(d) <= Buffered(c);
      DrainKeepsCommands(spec, d);
    }
  }
}
