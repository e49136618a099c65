/** What holds in every state the worker and its controller can reach, with crashes on either side between any two
    moves. */
module WorkerTheorems {
  import opened Wrappers
  import opened AttemptStates
  import opened Journal
  import opened WorkerProtocol
  import opened WorkerRuns
  import opened WorkerSafety
  import opened WorkerMoves
  import opened WorkerController
  import opened WorkerTools
  import Ledger

  // ---- Money ----

  lemma ModelMovesKeepMoney(s: System, m: Move)
    requires MoneyInv(s) && ModelMove(m)
    ensures MoneyInv(Next(s, m))
  {
    hide MoneyInv, ToolNext, ProcessNext, LeavingNext, RecoveryNext, ControllerNext;
    match m
    case OpenStep => OpenStepKeeps(s);
    case MarkLost => MarkLostKeeps(s);
    case Retry => RetryKeeps(s);
    case Ask => AskKeeps(s);
    case MarkSent => MarkSentKeeps(s);
    case CallProvider => CallProviderKeeps(s);
    case ProviderAnswers(r) => if s.w.Calling? { JudgeKeeps(s, Delivered, Answered(s.w.step, s.w.permit, r)); }
    case ProviderRefuses => if s.w.Calling? { JudgeKeeps(s, ProvedUnsent, Refused(s.w.step, s.w.permit)); }
    case ProviderFails => FailureKeeps(s);
    case Record => RecordKeeps(s);
    case NextStep(entries) => NextStepKeeps(s, entries);
    case BeginCorrection(entries) => NextStepKeeps(s, entries);
  }

  lemma ToolResultsKeepMoney(s: System, m: Move)
    requires MoneyInv(s) && (m.RecordTool? || m.DenyTool? || m.FetchReceipt?)
    ensures MoneyInv(Next(s, m))
  {
    hide MoneyInv, ModelNext, ProcessNext, LeavingNext, RecoveryNext, ControllerNext;
    if m.RecordTool? {
      RecordToolKeeps(s);
    } else {
      FinishToolKeeps(s, m.id);
    }
  }

  lemma ToolRunsKeepMoney(s: System, m: Move)
    requires MoneyInv(s) && (m.PrepareTool? || m.BeginTool? || m.RunLocal?)
    ensures MoneyInv(Next(s, m))
  {
    hide MoneyInv, ModelNext, ProcessNext, LeavingNext, RecoveryNext, ControllerNext;
    if m.PrepareTool? {
      PrepareToolKeeps(s, m.id, m.tool, m.args);
    } else if m.BeginTool? {
      BeginToolKeeps(s, m.id);
    } else {
      RunToolKeeps(s, m.success, m.output);
    }
  }

  lemma ToolMovesKeepMoney(s: System, m: Move)
    requires MoneyInv(s) && ToolMove(m)
    ensures MoneyInv(Next(s, m))
  {
    hide MoneyInv, ModelNext, ToolNext, LeavingNext, RecoveryNext, ControllerNext;
    if m.RecordTool? || m.DenyTool? || m.FetchReceipt? {
      ToolResultsKeepMoney(s, m);
    } else if WorkerToolMove(m) {
      ToolRunsKeepMoney(s, m);
    } else if m.CommitReceipt? {
      RunToolKeeps(s, m.success, m.output);
    } else if m.Acknowledge? {
      AcknowledgeKeeps(s, m.sequence);
    } else {
      OpenJournalKeeps(s);
      CommandKeeps(s);
    }
  }

  lemma FinishKeepsMoney(s: System, kind: AttemptState, why: string)
    requires MoneyInv(s)
    ensures MoneyInv(OnFinish(s, kind, why))
  {
    hide MoneyInv;
    if s.j.terminal.None? && !Active(kind) {
      AppendFrame(s, FinishEvent(kind, why), Down, Some(kind));
      assert Journal.Finish(s.j, kind, why) == Append(s.j, FinishEvent(kind, why)).(terminal := Some(kind));
    } else {
      OpenJournalKeeps(s);
    }
  }

  lemma SuspendKeepsMoney(s: System, why: string)
    requires MoneyInv(s)
    ensures MoneyInv(OnSuspend(s, why))
  {
    hide MoneyInv;
    AppendFrame(s, SuspensionEvent(s.j.nextStep, why), Down, s.j.terminal);
  }

  lemma NoteKeepsMoney(s: System)
    requires MoneyInv(s)
    ensures MoneyInv(OnNote(s)) && MoneyInv(OnCorrect(s))
  {
    hide MoneyInv;
    AppendFrame(s, StartedEvent, s.w, s.j.terminal);
    AppendFrame(s, CorrectionEvent, s.w, s.j.terminal);
    if s.w.Correcting? { CorrectedFrame(s.(j := Append(s.j, CorrectionEvent))); }
  }

  lemma CorrectedFrame(s: System)
    requires MoneyInv(s) && s.w.Correcting?
    ensures MoneyInv(s.(w := Idle))
  {
    var t := s.(w := Idle);
    forall i | 0 <= i < |t.j.events| ensures EventOk(t, t.j.events[i]) {
      assert EventOk(s, s.j.events[i]);
    }
  }

  lemma LeavingMovesKeepMoney(s: System, m: Move)
    requires MoneyInv(s) && LeavingMove(m)
    ensures MoneyInv(Next(s, m))
  {
    hide MoneyInv, ModelNext, ToolNext, ProcessNext, RecoveryNext, ControllerNext;
    match m
    case FinishRun(kind, why) => FinishKeepsMoney(s, kind, why);
    case SuspendRun(why) => SuspendKeepsMoney(s, why);
    case _ => NoteKeepsMoney(s);
  }

  lemma ControllerMovesKeepSafe(s: System, m: Move)
    requires Safe(s) && DeliveryInv(s) && !ModelMove(m) && !ToolMove(m) && !LeavingMove(m)
    ensures Safe(Next(s, m))
  {
    hide Ledger.Inv, MoneyInv, ModelNext, ToolNext, ProcessNext, LeavingNext;
    match m
    case Deliver(n) => DeliverKeepsSafe(s, n);
    case AnswerPermit(t) => AnswerPermitKeeps(s, t);
    case Start(denied) => StartKeeps(s, denied);
    case WorkerReady(refused) => ReadyKeeps(s, refused);
    case Retire(kind, why) => RetireKeeps(s, kind, why);
    case ControllerRestart => ControllerRestartKeeps(s);
    case RecoverRow(k) => RecoverRowKeeps(s, k);
    case RecoverUnsent(k, p) => RecoverUnsentKeeps(s, k, p);
    case RecoverFirst => RecoverFirstKeeps(s);
    case Conclude(reading) => ConcludeKeeps(s, reading);
    case Elsewhere(op) => ElsewhereKeeps(s, op);
  }

  lemma ModelMovesKeepController(s: System, m: Move)
    requires ModelMove(m) || LeavingMove(m)
    ensures Next(s, m).c == s.c
  {
    hide ToolNext, ProcessNext, RecoveryNext, ControllerNext;
  }

  lemma WorkerToolMovesKeepController(s: System, m: Move)
    requires WorkerToolMove(m) || m.OpenJournal? || m.Crash? || m.Acknowledge? || m.RefuseCommand?
    ensures Next(s, m).c == s.c
  {
    hide ModelNext, LeavingNext, RecoveryNext, ControllerNext;
  }

  lemma CommandMovesKeepRest(s: System, m: Move)
    requires m.AcceptCommand? || m.CommitEffect? || m.CommitReceipt?
    ensures Next(s, m).c == s.c.(commands := Next(s, m).c.commands)
  {
    hide ModelNext, ToolNext, LeavingNext, RecoveryNext, ControllerNext;
  }

  /** The worker's moves reach the controller's state only through the rows of its commands. */
  lemma WorkerMovesKeepController(s: System, m: Move)
    requires ModelMove(m) || ToolMove(m) || LeavingMove(m)
    ensures Next(s, m).c == s.c.(commands := Next(s, m).c.commands)
    ensures !m.AcceptCommand? && !m.CommitEffect? && !m.CommitReceipt? ==> Next(s, m).c == s.c
  {
    hide Next;
    if ModelMove(m) || LeavingMove(m) {
      ModelMovesKeepController(s, m);
    } else if m.AcceptCommand? || m.CommitEffect? || m.CommitReceipt? {
      CommandMovesKeepRest(s, m);
    } else {
      WorkerToolMovesKeepController(s, m);
    }
  }

  lemma NextKeepsSafe(s: System, m: Move)
    requires Safe(s) && DeliveryInv(s)
    ensures Safe(Next(s, m))
  {
    hide Ledger.Inv, MoneyInv;
    if ModelMove(m) {
      ModelMovesKeepMoney(s, m);
      WorkerMovesKeepController(s, m);
    } else if ToolMove(m) {
      ToolMovesKeepMoney(s, m);
      WorkerMovesKeepController(s, m);
    } else if LeavingMove(m) {
      LeavingMovesKeepMoney(s, m);
      WorkerMovesKeepController(s, m);
    } else {
      ControllerMovesKeepSafe(s, m);
    }
  }

  // ---- Delivery ----

  ghost predicate Grows(s: System, t: System) {
    |s.j.events| <= |t.j.events| && t.j.events[..|s.j.events|] == s.j.events && t.j.acked == s.j.acked
  }

  lemma ModelMovesGrow(s: System, m: Move)
    requires ModelMove(m)
    ensures Grows(s, Next(s, m))
  {
    hide ToolNext, ProcessNext, LeavingNext, RecoveryNext, ControllerNext;
  }

  lemma WorkerToolMovesGrow(s: System, m: Move)
    requires WorkerToolMove(m)
    ensures Grows(s, Next(s, m))
  {
    hide ModelNext, ProcessNext, LeavingNext, RecoveryNext, ControllerNext;
  }

  lemma ProcessMovesKeepEvents(s: System, m: Move)
    requires ToolMove(m) && !WorkerToolMove(m) && !m.Acknowledge?
    ensures Next(s, m).j.events == s.j.events && Next(s, m).j.acked == s.j.acked
  {
    hide ModelNext, ToolNext, LeavingNext, RecoveryNext, ControllerNext;
  }

  lemma ToolMovesGrow(s: System, m: Move)
    requires ToolMove(m) && !m.Acknowledge?
    ensures Grows(s, Next(s, m))
  {
    hide Next;
    if WorkerToolMove(m) {
      WorkerToolMovesGrow(s, m);
    } else {
      ProcessMovesKeepEvents(s, m);
    }
  }

  lemma LeavingMovesGrow(s: System, m: Move)
    requires LeavingMove(m)
    ensures Grows(s, Next(s, m))
  {
    hide ModelNext, ToolNext, ProcessNext, RecoveryNext, ControllerNext;
  }

  lemma ControllerMovesKeepJournal(s: System, m: Move)
    requires !ModelMove(m) && !ToolMove(m) && !LeavingMove(m)
    ensures Next(s, m).j == s.j
  {
    hide ModelNext, ToolNext, ProcessNext, LeavingNext;
  }

  /** The journal only grows, and only while the worker moves. */
  lemma JournalGrows(s: System, m: Move)
    ensures |s.j.events| <= |Next(s, m).j.events| && Next(s, m).j.events[..|s.j.events|] == s.j.events
    ensures Next(s, m).j.acked <= s.j.acked + (if m.Acknowledge? && m.sequence in s.c.inbox then {m.sequence} else {})
  {
    if ModelMove(m) {
      ModelMovesGrow(s, m);
    } else if !ToolMove(m) && !LeavingMove(m) {
      ControllerMovesKeepJournal(s, m);
    } else if LeavingMove(m) {
      LeavingMovesGrow(s, m);
    } else if !m.Acknowledge? {
      ToolMovesGrow(s, m);
    }
  }

  lemma DeliveryFrame(s: System, t: System)
    requires DeliveryInv(s)
    requires |s.j.events| <= |t.j.events| && t.j.events[..|s.j.events|] == s.j.events
    requires t.c.inbox == s.c.inbox && t.c.lastSequence == s.c.lastSequence && t.c.applied == s.c.applied
    requires forall n :: n in t.j.acked ==> n in s.c.inbox
    ensures DeliveryInv(t)
  {
    assert t.j.events[..s.c.lastSequence] == s.j.events[..s.c.lastSequence];
    forall n | n in t.c.inbox ensures 1 <= n <= |t.j.events| && t.c.inbox[n] == t.j.events[n - 1] {
      assert t.j.events[..|s.j.events|][n - 1] == t.j.events[n - 1];
    }
  }

  /** The inbox in the middle of a drain: everything up to `lastSequence` is applied, the rest may be waiting. */
  ghost predicate Draining(c: Controller, events: seq<Event>) {
    && FromJournal(c.inbox, events)
    && c.lastSequence <= |events| && c.applied == events[..c.lastSequence]
    && (forall n :: 1 <= n <= c.lastSequence ==> n in c.inbox)
  }

  lemma {:induction false} DrainApplies(spec: Spec, c: Controller, events: seq<Event>)
    requires Draining(c, events) && Drain(spec, c).Ok?
    ensures
      var d := Drain(spec, c).value;
      Draining(d, events) && d.inbox == c.inbox && d.lastSequence + 1 !in d.inbox && d.lastSequence >= c.lastSequence
    decreases Buffered(c)
  {
    var n := c.lastSequence + 1;
    if n in c.inbox {
      var a := ApplyEvent(spec, c, c.inbox[n]).value;
      var d := a.(lastSequence := n, applied := a.applied + [c.inbox[n]]);
      assert n in Buffered(c) && n !in Buffered(d) && Buffered(d) <= Buffered(c);
      assert d.applied == events[..n];
      DrainApplies(spec, d, events);
    }
  }

  lemma DeliverKeepsDelivery(s: System, n: nat)
    requires DeliveryInv(s)
    ensures DeliveryInv(OnDeliver(s, n)) && s.c.lastSequence <= OnDeliver(s, n).c.lastSequence
  {
    hide Drain;
    if OnDeliver(s, n) != s {
      DrainApplies(s.spec, s.c.(inbox := s.c.inbox[n := s.j.events[n - 1]]), s.j.events);
    }
  }

  ghost predicate SameInbox(c: Controller, d: Controller) {
    d.inbox == c.inbox && d.lastSequence == c.lastSequence && d.applied == c.applied && d.commands == c.commands
  }

  lemma AnswerKeepsInbox(s: System, t: Terms)
    ensures SameInbox(s.c, OnAnswerPermit(s, t).c)
  {
    hide Authorize;
    if s.rpc.AskPermit? { AuthorizeShape(s.spec, s.c, s.rpc.step, s.rpc.history, t); }
  }

  lemma RecoverKeepsInbox(s: System, k: nat, p: nat, reading: Reading)
    ensures SameInbox(s.c, OnRecoverRow(s, k).c) && SameInbox(s.c, OnRecoverUnsent(s, k, p).c)
    ensures SameInbox(s.c, OnRecoverFirst(s).c) && SameInbox(s.c, OnConclude(s, reading).c)
  {
    hide Decide, Ledger.Fail;
    DecideShape(s.spec, s.j, s.c, reading);
  }

  lemma StartKeepsInbox(s: System, denied: Option<string>, refused: bool)
    ensures SameInbox(s.c, OnStart(s, denied).c) && SameInbox(s.c, OnReady(s, refused).c)
  {
  }

  lemma CompanyKeepsInbox(s: System, kind: AttemptState, why: string, op: Ledger.Op)
    ensures SameInbox(s.c, OnRetire(s, kind, why).c) && SameInbox(s.c, OnControllerRestart(s).c)
    ensures SameInbox(s.c, OnElsewhere(s, op).c)
  {
    hide Ledger.Step, Ledger.Restart;
  }

  lemma RecoveryMovesKeepInbox(s: System, m: Move)
    requires RecoveryMove(m)
    ensures SameInbox(s.c, Next(s, m).c)
  {
    hide SameInbox, ModelNext, ToolNext, ProcessNext, LeavingNext, ControllerNext, OnRecoverRow, OnRecoverUnsent,
      OnRecoverFirst, OnConclude;
    match m
    case RecoverRow(k) => RecoverKeepsInbox(s, k, 0, Readable);
    case RecoverUnsent(k, p) => RecoverKeepsInbox(s, k, p, Readable);
    case RecoverFirst => RecoverKeepsInbox(s, 0, 0, Readable);
    case Conclude(reading) => RecoverKeepsInbox(s, 0, 0, reading);
  }

  lemma CompanyMovesKeepInbox(s: System, m: Move)
    requires m.AnswerPermit? || m.Start? || m.WorkerReady? || m.ControllerRestart? || m.Retire? || m.Elsewhere?
    ensures SameInbox(s.c, Next(s, m).c)
  {
    hide SameInbox, ModelNext, ToolNext, ProcessNext, LeavingNext, RecoveryNext, OnAnswerPermit, OnStart, OnReady,
      OnRetire, OnControllerRestart, OnElsewhere;
    match m
    case AnswerPermit(t) => AnswerKeepsInbox(s, t);
    case Start(denied) => StartKeepsInbox(s, denied, true);
    case WorkerReady(refused) => StartKeepsInbox(s, None, refused);
    case Retire(kind, why) => CompanyKeepsInbox(s, kind, why, Ledger.RestartOp);
    case ControllerRestart => CompanyKeepsInbox(s, Blocked, "", Ledger.RestartOp);
    case Elsewhere(op) => CompanyKeepsInbox(s, Blocked, "", op);
  }

  lemma ControllerMovesKeepInbox(s: System, m: Move)
    requires !ModelMove(m) && !ToolMove(m) && !LeavingMove(m) && !m.Deliver?
    ensures SameInbox(s.c, Next(s, m).c)
  {
    hide Next;
    if RecoveryMove(m) {
      RecoveryMovesKeepInbox(s, m);
    } else {
      CompanyMovesKeepInbox(s, m);
    }
  }

  lemma OtherMovesKeepInbox(s: System, m: Move)
    requires !m.Deliver?
    ensures Next(s, m).c.inbox == s.c.inbox && Next(s, m).c.lastSequence == s.c.lastSequence
        && Next(s, m).c.applied == s.c.applied
    ensures !m.AcceptCommand? && !m.CommitEffect? && !m.CommitReceipt? ==> Next(s, m).c.commands == s.c.commands
  {
    hide Next;
    if ModelMove(m) || ToolMove(m) || LeavingMove(m) {
      WorkerMovesKeepController(s, m);
    } else {
      ControllerMovesKeepInbox(s, m);
    }
  }

  /** Whatever is delivered, lost, repeated or replayed, the controller has applied a prefix of the journal, each event
      once and in order; what it has applied it never takes back. */
  lemma NextKeepsDelivery(s: System, m: Move)
    requires DeliveryInv(s)
    ensures DeliveryInv(Next(s, m)) && s.c.lastSequence <= Next(s, m).c.lastSequence
  {
    if m.Deliver? {
      DeliverKeepsDelivery(s, m.sequence);
    } else {
      JournalGrows(s, m);
      OtherMovesKeepInbox(s, m);
      DeliveryFrame(s, Next(s, m));
    }
  }

  // ---- Stops ----

  /** A permit of this attempt that may still be charged without a stored response. */
  ghost predicate Clear(s: System) {
    forall p :: 0 <= p < |s.c.ledger.permits| ==> !OpenCall(s.spec, s.c.ledger.permits[p])
  }

  ghost predicate StopInv(s: System) {
    && (forall e :: e in s.c.stops ==> e <= s.c.epoch)
    && (s.c.launch.Starting? || s.c.launch.LaunchRunning? || s.c.launch.LaunchReady? ==> s.c.epoch !in s.c.stops)
    && (s.c.epoch in s.c.stops ==> s.c.attempt.Suspended? || !Active(s.c.attempt))
    && (s.c.launch.LaunchSuspended? ==>
        s.w.Down? && s.rpc.NoRpc? && s.c.epoch in s.c.stops && Clear(s) && (!s.c.blind ==> !UnknownTool(s.j, s.c)))
    && (s.c.launch.Exited? ==> !Active(s.c.attempt))
  }

  /** Rows that evolve as the ledger allows never open a call that was closed. */
  lemma ClearFrame(s: System, t: System)
    requires Clear(s) && t.spec == s.spec && Ledger.Evolves(s.c.ledger, t.c.ledger)
    requires forall p :: |s.c.ledger.permits| <= p < |t.c.ledger.permits| ==> !BelongsTo(s.spec, t.c.ledger.permits[p])
    ensures Clear(t)
  {
    forall p | 0 <= p < |t.c.ledger.permits| ensures !OpenCall(t.spec, t.c.ledger.permits[p]) {
      if p < |s.c.ledger.permits| {
        assert Ledger.RowEvolves(s.c.ledger.permits[p], t.c.ledger.permits[p])
            && !OpenCall(s.spec, s.c.ledger.permits[p]);
      }
    }
  }

  lemma StopFrame(s: System, t: System)
    requires StopInv(s)
    requires t.c == s.c.(ledger := t.c.ledger, inbox := t.c.inbox, lastSequence := t.c.lastSequence,
        applied := t.c.applied,
                         attempt := t.c.attempt, reason := t.c.reason, grants := t.c.grants, commands := t.c.commands)
    requires t.c.attempt == s.c.attempt || !Active(t.c.attempt)
    requires s.c.launch.LaunchSuspended? ==>
        t.w.Down? && t.rpc.NoRpc? && t.j.tools == s.j.tools && t.c.commands == s.c.commands && (Clear(s) ==> Clear(t))
    ensures StopInv(t)
  {
    if s.c.launch.LaunchSuspended? && !s.c.blind {
      forall id | id in t.j.tools ensures !UnfinishedTool(t.j, t.c, id) {
        assert !UnfinishedTool(s.j, s.c, id);
      }
    }
  }

  lemma {:induction false} DrainEvolves(s: System)
    requires Safe(s) && FromJournal(s.c.inbox, s.j.events) && Drain(s.spec, s.c).Ok?
    ensures
      var d := Drain(s.spec, s.c).value;
      && d == s.c.(ledger := d.ledger, lastSequence := d.lastSequence, applied := d.applied, attempt := d.attempt,
          reason := d.reason)
      && Ledger.Evolves(s.c.ledger, d.ledger) && |d.ledger.permits| == |s.c.ledger.permits|
      && (d.attempt == s.c.attempt || !Active(d.attempt))
    decreases Buffered(s.c)
  {
    hide Ledger.Inv, MoneyInv;
    var n := s.c.lastSequence + 1;
    if n in s.c.inbox {
      var e := s.c.inbox[n];
      assert e in s.j.events;
      ApplyKeepsSafe(s, e);
      ApplyEvolves(s, e);
      var a := s.(c := ApplyEvent(s.spec, s.c, e).value);
      var d := a.(c := a.c.(lastSequence := n, applied := a.c.applied + [e]));
      InboxFrame(a, d);
      assert n in Buffered(s.c) && n !in Buffered(d.c) && Buffered(d.c) <= Buffered(s.c);
      DrainEvolves(d);
      EvolvesTransitive(s.c.ledger, d.c.ledger, Drain(s.spec, d.c).value.ledger);
    }
  }

  lemma EvolvesTransitive(a: Ledger.State, b: Ledger.State, c: Ledger.State)
    requires Ledger.Evolves(a, b) && Ledger.Evolves(b, c)
    ensures Ledger.Evolves(a, c)
  {
    forall i | 0 <= i < |a.permits| ensures Ledger.RowEvolves(a.permits[i], c.permits[i]) {
      assert Ledger.RowEvolves(a.permits[i], b.permits[i]) && Ledger.RowEvolves(b.permits[i], c.permits[i]);
    }
  }

  lemma ApplyEvolves(s: System, e: Event)
    requires Safe(s) && e in s.j.events && ApplyEvent(s.spec, s.c, e).Ok?
    ensures
      var a := ApplyEvent(s.spec, s.c, e).value;
      && a == s.c.(ledger := a.ledger, attempt := a.attempt, reason := a.reason)
      && Ledger.Evolves(s.c.ledger, a.ledger) && |a.ledger.permits| == |s.c.ledger.permits|
      && (a.attempt == s.c.attempt || !Active(a.attempt))
  {
    hide Ledger.Inv, JournalInv, GrantInv, CallInv, PhaseInv, AnswerInv, Ledger.Evolves, Ledger.Respond, Ledger.Fail;
    var i :| 0 <= i < |s.j.events| && s.j.events[i] == e;
    assert EventOk(s, e);
    Ledger.UnchangedKeepsInv(s.c.ledger);
    match e
    case AnswerEvent(_, p, response) => Ledger.RespondKeepsInv(s.c.ledger, p, response); RespondFlips(s.c.ledger, p,
        response);
    case FailureEvent(_, p, notSent) => Ledger.FailKeepsInv(s.c.ledger, p, notSent); FailFlips(s.c.ledger, p, notSent);
    case _ =>
  }

  lemma DeliverKeepsStop(s: System, n: nat)
    requires Safe(s) && DeliveryInv(s) && StopInv(s)
    ensures StopInv(OnDeliver(s, n))
  {
    hide Ledger.Inv, MoneyInv;
    if OnDeliver(s, n) != s {
      var u := s.(c := s.c.(inbox := s.c.inbox[n := s.j.events[n - 1]]));
      InboxFrame(s, u);
      DrainEvolves(u);
      if Clear(s) { ClearFrame(s, OnDeliver(s, n)); }
      StopFrame(s, OnDeliver(s, n));
    }
  }

  /** Recovery suspends an attempt only when nothing it may have sent or started is left open; unless it could not read
      the journal. */
  lemma ConcludeKeepsStop(s: System, reading: Reading)
    requires StopInv(s)
    ensures StopInv(OnConclude(s, reading))
  {
    if MayRecover(s) {
      var d := Diagnosis(s.spec, s.j, s.c, reading);
      assert d.0.Suspended? ==> !UnknownOutcome(s.spec, s.c) && (reading.Readable? ==> !UnknownTool(s.j, s.c));
      var t := OnConclude(s, reading);
      forall id | id in s.j.tools ensures UnfinishedTool(t.j, t.c, id) <==> UnfinishedTool(s.j, s.c, id) {
      }
    }
  }

  lemma FailKeepsStop(s: System, p: nat, notSent: bool)
    requires Safe(s) && StopInv(s)
    ensures StopInv(s.(c := s.c.(ledger := Ledger.Fail(s.c.ledger, p, notSent))))
  {
    hide Ledger.Inv, MoneyInv;
    var t := s.(c := s.c.(ledger := Ledger.Fail(s.c.ledger, p, notSent)));
    Ledger.FailKeepsInv(s.c.ledger, p, notSent);
    FailFlips(s.c.ledger, p, notSent);
    if Clear(s) { ClearFrame(s, t); }
    StopFrame(s, t);
  }

  lemma RestartKeepsStop(s: System)
    requires Safe(s) && StopInv(s)
    ensures StopInv(OnControllerRestart(s))
  {
    hide Ledger.Inv, MoneyInv;
    Ledger.RestartKeepsInv(s.c.ledger);
    if Clear(s) { ClearFrame(s, OnControllerRestart(s)); }
    StopFrame(s, OnControllerRestart(s));
  }

  lemma ElsewhereAdds(s: System, op: Ledger.Op, p: nat)
    requires Foreign(s, op) && |s.c.ledger.permits| <= p < |Ledger.Step(s.c.ledger, op).permits|
    ensures !BelongsTo(s.spec, Ledger.Step(s.c.ledger, op).permits[p])
  {
    Ledger.StepShape(s.c.ledger, op);
  }

  lemma ElsewhereKeepsStop(s: System, op: Ledger.Op)
    requires Safe(s) && StopInv(s)
    ensures StopInv(OnElsewhere(s, op))
  {
    hide Ledger.Inv, MoneyInv;
    if Foreign(s, op) {
      var t := OnElsewhere(s, op);
      Ledger.StepKeepsInv(s.c.ledger, op);
      forall p | |s.c.ledger.permits| <= p < |t.c.ledger.permits| ensures !BelongsTo(s.spec, t.c.ledger.permits[p]) {
        ElsewhereAdds(s, op, p);
      }
      if Clear(s) { ClearFrame(s, t); }
      StopFrame(s, t);
    }
  }

  lemma AnswerKeepsStop(s: System, t: Terms)
    requires StopInv(s) && PhaseInv(s)
    ensures StopInv(OnAnswerPermit(s, t))
  {
    if s.rpc.AskPermit? {
      AuthorizeShape(s.spec, s.c, s.rpc.step, s.rpc.history, t);
      StopFrame(s, OnAnswerPermit(s, t));
    }
  }

  lemma WorkerMovesKeepStop(s: System, m: Move)
    requires StopInv(s) && PhaseInv(s) && (ModelMove(m) || ToolMove(m) || LeavingMove(m))
    ensures StopInv(Next(s, m))
  {
    hide PhaseInv, Next;
    WorkerMovesKeepController(s, m);
    if s.c.launch.LaunchSuspended? {
      DownStays(s, m);
    }
    StopFrame(s, Next(s, m));
  }

  lemma DownStaysInCalls(s: System, m: Move)
    requires s.w.Down? && (ModelMove(m) || LeavingMove(m))
    ensures Next(s, m) == s
  {
    hide ToolNext, ProcessNext, RecoveryNext, ControllerNext;
  }

  lemma DownStaysInTools(s: System, m: Move)
    requires s.w.Down? && s.rpc.NoRpc? && ToolMove(m)
    ensures Next(s, m) == s.(j := s.j.(acked := Next(s, m).j.acked))
  {
    hide ModelNext, LeavingNext, RecoveryNext, ControllerNext;
  }

  /** With the worker dead and no message left, worker moves change nothing but acknowledgements. */
  lemma DownStays(s: System, m: Move)
    requires s.w.Down? && s.rpc.NoRpc? && (ModelMove(m) || ToolMove(m) || LeavingMove(m))
    ensures Next(s, m) == s.(j := s.j.(acked := Next(s, m).j.acked))
  {
    hide Next;
    if ToolMove(m) {
      DownStaysInTools(s, m);
    } else {
      DownStaysInCalls(s, m);
    }
  }

  lemma RecoveryKeepsStop(s: System, m: Move)
    requires Safe(s) && StopInv(s) && RecoveryMove(m)
    ensures StopInv(Next(s, m))
  {
    hide Ledger.Inv, MoneyInv, StopInv, ModelNext, ToolNext, ProcessNext, LeavingNext, ControllerNext;
    match m
    case RecoverRow(k) =>
      if k in s.j.models && s.j.models[k].permit.Some? {
        FailKeepsStop(s, s.j.models[k].permit.value, s.j.models[k].state.CallNotSent?);
      }
    case RecoverUnsent(k, p) => FailKeepsStop(s, p, true);
    case RecoverFirst => FailKeepsStop(s, s.c.firstPermit, true);
    case Conclude(reading) => ConcludeKeepsStop(s, reading);
  }

  lemma StartKeepsStop(s: System, denied: Option<string>)
    requires StopInv(s)
    ensures StopInv(OnStart(s, denied))
  {
  }

  lemma StateKeepsStop(s: System, refused: bool, kind: AttemptState, why: string)
    requires StopInv(s)
    ensures StopInv(OnReady(s, refused)) && StopInv(OnRetire(s, kind, why))
  {
    hide UnknownTool, UnfinishedTool;
    assert UnknownTool(s.j, OnRetire(s, kind, why).c)
        == UnknownTool(s.j, s.c) by { SameTools(s.j, s.c, OnRetire(s, kind, why).c); }
  }

  lemma SameTools(j: Rows, c: Controller, d: Controller)
    requires d.commands == c.commands
    ensures UnknownTool(j, d) == UnknownTool(j, c)
  {
    assert forall id :: id in j.tools ==> UnfinishedTool(j, d, id) == UnfinishedTool(j, c, id);
  }

  lemma ControllerMovesKeepStop(s: System, m: Move)
    requires Safe(s) && DeliveryInv(s) && StopInv(s) && !ModelMove(m) && !ToolMove(m) && !LeavingMove(m)
        && !RecoveryMove(m)
    ensures StopInv(Next(s, m))
  {
    hide Ledger.Inv, JournalInv, GrantInv, CallInv, EventInv, PhaseInv, AnswerInv, DeliveryInv, StopInv, ModelNext,
        ToolNext, ProcessNext, LeavingNext;
    match m
    case Deliver(n) => DeliverKeepsStop(s, n);
    case AnswerPermit(t) => AnswerKeepsStop(s, t);
    case ControllerRestart => RestartKeepsStop(s);
    case Elsewhere(op) => ElsewhereKeepsStop(s, op);
    case Start(denied) => StartKeepsStop(s, denied);
    case WorkerReady(refused) => StateKeepsStop(s, refused, Blocked, "");
    case Retire(kind, why) => StateKeepsStop(s, false, kind, why);
  }

  lemma NextKeepsStop(s: System, m: Move)
    requires Safe(s) && DeliveryInv(s) && StopInv(s)
    ensures StopInv(Next(s, m))
  {
    hide Ledger.Inv, JournalInv, GrantInv, CallInv, EventInv, PhaseInv, AnswerInv, DeliveryInv, StopInv, Next;
    if ModelMove(m) || ToolMove(m) || LeavingMove(m) {
      WorkerMovesKeepStop(s, m);
    } else if RecoveryMove(m) {
      RecoveryKeepsStop(s, m);
    } else {
      ControllerMovesKeepStop(s, m);
    }
  }
}
