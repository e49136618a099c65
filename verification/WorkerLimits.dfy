/** Where the protocol's guarantees end, each limit by a run that reaches it: a suspended attempt that hides a tool of
    unknown outcome, a grant that no recovery releases, and a journal that no replay can apply. */
module WorkerLimits {
  import opened Wrappers
  import opened AttemptStates
  import opened Journal
  import opened WorkerProtocol
  import opened WorkerRuns
  import opened WorkerSafety
  import opened WorkerResults
  import opened WorkerReports
  import opened WorkerRecovery
  import Ledger
  import Money

  /** A million a million tokens, one micro a token. */
  const RATE := Money.Decimal(1, [])
  const PRICE := Money.Price(RATE, RATE, None)
  const RESERVED := 1025
  const SPEC := Spec(0, 0, 3, 1, 1)
  const SILENT := Ledger.Response(0, Money.Usage(None, None, None, None, false))
  const LOST_CONTROLLER := "OWNER_CONTROLLER_DISCONNECTED"
  const TOOL := ToolId(0, 0)
  const COMMAND := Tool.Command(0, false)
  const TERMS := Terms(Some(PRICE), 0, false, None)
  const ANSWER := AnswerEvent(0, 0, SILENT)
  const REFUSAL := FailureEvent(0, 0, true)
  const SUSPENSION := SuspensionEvent(0, LOST_CONTROLLER)

  function FirstPermit(state: Ledger.PermitState, response: Option<Ledger.Response>): Ledger.Permit {
    Ledger.Permit(state, Some(SourceOf(SPEC, 0)), Ledger.StepRequest(0, []), PRICE, 1024, 1, RESERVED, None, None,
        response)
  }

  function Company(permits: seq<Ledger.Permit>): Ledger.State {
    Ledger.State(permits, Ledger.Budget(10_000, 0, true, false, Some(1), 1, 1), true, false, None, false)
  }

  /** A claimed attempt with its first permit, in a company that is on. */
  const CLAIMED := System(SPEC, NO_ROWS,
    Controller(Company([FirstPermit(Ledger.Sent, None)]), 0, map[], LaunchReady, 0, DispatchPending, "", {}, false,
    map[],
    0, [], map[]),
    Down, NoRpc, false, [], multiset{})

  lemma UnitRate()
    ensures Money.Rate(RATE) == Ok(1_000_000)
  {
    Money.RateIsExact(RATE);
    assert Money.Scaled(RATE) == 1 && Money.Pow10(|RATE.fraction|) == 1;
  }

  lemma UnitRatesCost(p: Money.Price)
    requires Money.Rate(p.input) == Ok(1_000_000) && Money.Rate(p.output) == Ok(1_000_000) && p.cached.None?
    ensures Money.CostMicros(p, 1024, 1, 0) == Ok(RESERVED)
  {
    hide Money.Rate;
    assert Money.ExactCost(1_000_000, 1_000_000, 1_000_000, 1024, 1, 0) == 1_025_000_000;
  }

  lemma CallCosts()
    ensures Money.ReserveMicros(PRICE, 1024, 1) == Ok(RESERVED)
  {
    UnitRate();
    assert !Money.Cheaper(PRICE.input, Money.CachedPrice(PRICE));
    assert Money.ReservePrice(PRICE) == PRICE;
    hide Money.Rate, Money.Cheaper, Money.CostMicros, Money.ReservePrice;
    UnitRatesCost(PRICE);
  }

  lemma ClaimedIsCreated()
    ensures Created(CLAIMED)
  {
    CallCosts();
    hide Money.ReserveMicros;
    assert Ledger.PermitOk(FirstPermit(Ledger.Sent, None));
  }

  // ---- Composing runs ----

  lemma Append(s: System, moves: seq<Move>, m: Move)
    ensures Run(s, moves + [m]) == Next(Run(s, moves), m)
  {
    hide Next;
    assert (moves + [m])[..|moves|] == moves;
  }

  lemma Three(s: System, a: Move, b: Move, c: Move)
    ensures Run(s, [a, b, c]) == Next(Next(Next(s, a), b), c)
  {
    hide Next;
    Append(s, [], a);
    Append(s, [a], b);
    Append(s, [a, b], c);
    assert [] + [a] == [a] && [a] + [b] == [a, b] && [a, b] + [c] == [a, b, c];
  }

  lemma Four(s: System, a: Move, b: Move, c: Move, d: Move)
    ensures Run(s, [a, b, c, d]) == Next(Next(Next(Next(s, a), b), c), d)
  {
    hide Next, Run;
    Three(s, a, b, c);
    Append(s, [a, b, c], d);
    assert [a, b, c] + [d] == [a, b, c, d];
  }

  lemma Five(s: System, a: Move, b: Move, c: Move, d: Move, e: Move)
    ensures Run(s, [a, b, c, d, e]) == Next(Next(Next(Next(Next(s, a), b), c), d), e)
  {
    hide Next, Run;
    Four(s, a, b, c, d);
    Append(s, [a, b, c, d], e);
    assert [a, b, c, d] + [e] == [a, b, c, d, e];
  }

  lemma OpeningMoves(s: System)
    ensures Next(s, Start(None)) == OnStart(s, None) && Next(s, AnswerPermit(TERMS)) == OnAnswerPermit(s, TERMS)
  {
    hide ModelNext, ToolNext, ProcessNext, LeavingNext, RecoveryNext, OnStart, OnAnswerPermit;
  }

  lemma SteppingMoves(s: System)
    ensures Next(s, AppendStarted) == OnNote(s) && Next(s, OpenStep) == OnStep(s) && Next(s, Ask) == OnAsk(s)
  {
    hide ToolNext, ProcessNext, RecoveryNext, ControllerNext, OnNote, OnStep, OnAsk;
  }

  lemma CallingMoves(s: System)
    ensures Next(s, MarkSent) == OnMarkSent(s) && Next(s, CallProvider) == OnCallProvider(s)
    ensures Next(s, ProviderAnswers(SILENT)) == OnAnswer(s, SILENT) && Next(s, ProviderRefuses) == OnRefusal(s)
    ensures Next(s, Record) == OnRecord(s) && Next(s, Retry) == OnRetry(s)
  {
    hide OnMarkSent, OnCallProvider, OnAnswer, OnRefusal, OnRecord, OnRetry, ToolNext, ProcessNext, LeavingNext,
        RecoveryNext, ControllerNext;
  }

  lemma ProcessMoves(s: System)
    ensures Next(s, OpenJournal) == OnOpenJournal(s) && Next(s, Crash) == OnCrash(s)
    ensures Next(s, SuspendRun(LOST_CONTROLLER)) == OnSuspend(s, LOST_CONTROLLER)
  {
    hide ModelNext, ToolNext, RecoveryNext, ControllerNext, OnSuspend, OnCrash, OnOpenJournal;
  }

  lemma ToolMoves(s: System)
    ensures Next(s, PrepareTool(TOOL, COMMAND, 0)) == OnPrepareTool(s, TOOL, COMMAND, 0)
    ensures Next(s, BeginTool(TOOL)) == OnBeginTool(s, TOOL)
  {
    hide ModelNext, ProcessNext, LeavingNext, RecoveryNext, ControllerNext, OnPrepareTool, OnBeginTool;
  }

  lemma RecoveryMoves(s: System, n: nat, reading: Reading)
    ensures Next(s, Deliver(n)) == OnDeliver(s, n) && Next(s, Conclude(reading)) == OnConclude(s, reading)
  {
    hide OnDeliver, OnConclude, ModelNext, ToolNext, ProcessNext, LeavingNext, ControllerNext;
  }

  lemma LedgerMoves(s: System, op: Ledger.Op)
    ensures Next(s, ControllerRestart) == OnControllerRestart(s) && Next(s, Elsewhere(op)) == OnElsewhere(s, op)
  {
    hide OnControllerRestart, OnElsewhere, ModelNext, ToolNext, ProcessNext, LeavingNext, RecoveryNext;
  }

  /** The delivery of the next event. */
  lemma DeliversNext(s: System, n: nat)
    requires n == s.c.lastSequence + 1 <= |s.j.events| && n !in s.c.inbox && n + 1 !in s.c.inbox
    requires ApplyEvent(s.spec, Posted(s, n).c, s.j.events[n - 1]).Ok?
    ensures
      var a := ApplyEvent(s.spec, Posted(s, n).c, s.j.events[n - 1]).value;
      OnDeliver(s, n) == s.(c := a.(lastSequence := n, applied := s.c.applied + [s.j.events[n - 1]]))
  {
    hide ApplyEvent;
    var a := ApplyEvent(s.spec, Posted(s, n).c, s.j.events[n - 1]).value;
    var d := a.(lastSequence := n, applied := a.applied + [s.j.events[n - 1]]);
    assert Drain(s.spec, d) == Ok(d);
  }

  // ---- The first process, until its call is permitted ----

  const BOOT: seq<Move> := [Start(None), OpenJournal, OpenJournal]
  const STEP: seq<Move> := [AppendStarted, OpenStep, Ask, AnswerPermit(TERMS)]

  const BOOTED := CLAIMED.(
    j := NO_ROWS.(file := Ready),
    c := CLAIMED.c.(launch := Starting, epoch := 1),
    w := Idle, connected := true)

  const ASKING := BOOTED.(
    j := BOOTED.j.(models := map[0 := FreshModel([])], events := [StartedEvent]),
    w := Asking(0), rpc := AskPermit(0, []))

  const GRANTED := ASKING.(c := ASKING.c.(grants := map[0 := Grant(0, 1)]), w := Permitted(0, 0), rpc := NoRpc)

  lemma ReachesBooted()
    ensures Run(CLAIMED, BOOT) == BOOTED
  {
    hide Run, Next;
    Three(CLAIMED, Start(None), OpenJournal, OpenJournal);
    OpeningMoves(CLAIMED);
    ProcessMoves(OnStart(CLAIMED, None));
    ProcessMoves(OnOpenJournal(OnStart(CLAIMED, None)));
  }

  lemma ReachesAsking()
    ensures OnAsk(OnStep(OnNote(BOOTED))) == ASKING
  {
  }

  lemma ReachesGranted()
    ensures OnAnswerPermit(ASKING, TERMS) == GRANTED
  {
    assert FirstReusable(ASKING.c, 0) && IntentRefusal(ASKING.c, None).None?;
    assert ASKING.c.ledger.permits[0 := ASKING.c.ledger.permits[0].(state := Ledger.Sent)] == ASKING.c.ledger.permits;
  }

  lemma FirstRun()
    ensures Run(CLAIMED, BOOT + STEP) == GRANTED
  {
    hide Next, Run, OnNote, OnStep, OnAsk, OnAnswerPermit;
    RunOfParts(CLAIMED, BOOT, STEP);
    ReachesBooted();
    Four(BOOTED, AppendStarted, OpenStep, Ask, AnswerPermit(TERMS));
    SteppingMoves(BOOTED);
    SteppingMoves(OnNote(BOOTED));
    SteppingMoves(OnStep(OnNote(BOOTED)));
    OpeningMoves(ASKING);
    ReachesAsking();
    ReachesGranted();
  }

  // ---- A call that is answered ----

  const CALL: seq<Move> := [MarkSent, CallProvider, ProviderAnswers(SILENT), Record]

  const ANSWERED := GRANTED.(
    j := GRANTED.j.(models := map[0 := ModelRow([], Responded, Some(0), Some(SILENT), 1)],
        events := [StartedEvent, ANSWER]),
    w := Idle, calls := [ProviderCall(0, 0, 1, Delivered)])

  lemma ReachesAnswered()
    ensures OnRecord(OnAnswer(OnCallProvider(OnMarkSent(GRANTED)), SILENT)) == ANSWERED
  {
  }

  lemma CallRun()
    ensures Run(GRANTED, CALL) == ANSWERED
  {
    hide Next, Run, OnMarkSent, OnCallProvider, OnAnswer, OnRecord;
    Four(GRANTED, MarkSent, CallProvider, ProviderAnswers(SILENT), Record);
    CallingMoves(GRANTED);
    CallingMoves(OnMarkSent(GRANTED));
    CallingMoves(OnCallProvider(OnMarkSent(GRANTED)));
    CallingMoves(OnAnswer(OnCallProvider(OnMarkSent(GRANTED)), SILENT));
    ReachesAnswered();
  }

  // ---- A suspended attempt that hides a tool ----

  const RECOVERY: seq<Move> := [SuspendRun(LOST_CONTROLLER), Deliver(1), Deliver(2), Deliver(3), Conclude(Readable)]
  const SECOND: seq<Move> := [Start(None), OpenJournal, PrepareTool(TOOL, COMMAND, 0), BeginTool(TOOL), Crash]
  const BLIND_END := Conclude(Broken(Some(LOST_CONTROLLER)))

  const LEFT := ANSWERED.(j := ANSWERED.j.(events := [StartedEvent, ANSWER, SUSPENSION]), w := Down)

  const DELIVERED := LEFT.(c := Heard(SUSPENSION))

  /** The controller has read the journal and suspended the attempt: nothing is open. */
  const SUSPENDED := DELIVERED.(c := DELIVERED.c.(
    attempt := Suspended, reason := LOST_CONTROLLER, stops := {1}, launch := LaunchSuspended))

  lemma ReachesLeft()
    ensures OnSuspend(ANSWERED, LOST_CONTROLLER) == LEFT
  {
  }

  lemma DeliversStart(s: System)
    requires s.c.inbox == map[] && s.c.lastSequence == 0 && s.c.applied == [] && |s.j.events| > 0
        && s.j.events[0] == StartedEvent
    ensures OnDeliver(s, 1) == s.(c := s.c.(inbox := map[1 := StartedEvent], lastSequence := 1,
        applied := [StartedEvent]))
  {
    DeliversNext(s, 1);
    assert map[][1 := StartedEvent] == map[1 := StartedEvent];
  }

  lemma AppliesAnswer(s: System)
    requires s.spec == SPEC && s.c.ledger == Company([FirstPermit(Ledger.Sent, None)])
    ensures ApplyEvent(SPEC, s.c, ANSWER) == Ok(s.c.(ledger := Company([FirstPermit(Ledger.Unknown, Some(SILENT))])))
  {
    assert Money.BillOf(PRICE, SILENT.usage) == Ok(None);
    assert s.c.ledger.permits[0 := FirstPermit(Ledger.Unknown, Some(SILENT))]
        == [FirstPermit(Ledger.Unknown, Some(SILENT))];
    assert Ledger.Respond(s.c.ledger, 0, SILENT) == Ok(Company([FirstPermit(Ledger.Unknown, Some(SILENT))]));
  }

  /** What the controller holds once it has read an answer and what follows it. */
  function Heard(last: Event): Controller {
    ANSWERED.c.(ledger := Company([FirstPermit(Ledger.Unknown, Some(SILENT))]),
      inbox := map[1 := StartedEvent, 2 := ANSWER, 3 := last], lastSequence := 3,
      applied := [StartedEvent, ANSWER, last])
  }

  lemma DeliversThree(s: System, last: Event)
    requires s.spec == SPEC && s.c == ANSWERED.c && s.j.events == [StartedEvent, ANSWER, last]
    requires last.SuspensionEvent? || last.AdvanceEvent?
    ensures OnDeliver(OnDeliver(OnDeliver(s, 1), 2), 3) == s.(c := Heard(last))
  {
    hide OnDeliver, Drain, Ledger.Respond;
    DeliversStart(s);
    var t := OnDeliver(s, 1);
    AppliesAnswer(Posted(t, 2));
    DeliversNext(t, 2);
    var u := OnDeliver(t, 2);
    DeliversNext(u, 3);
    assert OnDeliver(u, 3).c.inbox == Heard(last).inbox;
    assert OnDeliver(u, 3).c.applied == [StartedEvent, ANSWER, last];
  }

  lemma ConcludesSuspended()
    ensures OnConclude(DELIVERED, Readable) == SUSPENDED
  {
    assert LastSuspension(LEFT.j.events) == Some(LOST_CONTROLLER);
    assert !UnknownOutcome(SPEC, DELIVERED.c) && !UnknownTool(DELIVERED.j, DELIVERED.c);
    assert {} + {1} == {1};
  }

  lemma RecoveryRun()
    ensures Run(ANSWERED, RECOVERY) == SUSPENDED
  {
    hide Next, Run, OnDeliver, OnConclude, OnSuspend;
    Five(ANSWERED, SuspendRun(LOST_CONTROLLER), Deliver(1), Deliver(2), Deliver(3), Conclude(Readable));
    ProcessMoves(ANSWERED);
    ReachesLeft();
    RecoveryMoves(LEFT, 1, Readable);
    RecoveryMoves(OnDeliver(LEFT, 1), 2, Readable);
    RecoveryMoves(OnDeliver(OnDeliver(LEFT, 1), 2), 3, Readable);
    DeliversThree(LEFT, SUSPENSION);
    RecoveryMoves(DELIVERED, 0, Readable);
    ConcludesSuspended();
  }

  /** The second process has started a command and died. */
  const STARTED := SUSPENDED.(
    j := SUSPENDED.j.(tools := map[TOOL := ToolRow(COMMAND, 0, ToolStarted, None)]),
    c := SUSPENDED.c.(launch := Starting, epoch := 2))

  lemma ReachesStarted()
    ensures OnCrash(OnBeginTool(OnPrepareTool(OnOpenJournal(OnStart(SUSPENDED, None)), TOOL, COMMAND, 0), TOOL))
        == STARTED
  {
  }

  lemma SecondRun()
    ensures Run(SUSPENDED, SECOND) == STARTED
  {
    hide Next, Run, OnStart, OnOpenJournal, OnPrepareTool, OnBeginTool, OnCrash;
    Five(SUSPENDED, Start(None), OpenJournal, PrepareTool(TOOL, COMMAND, 0), BeginTool(TOOL), Crash);
    OpeningMoves(SUSPENDED);
    ProcessMoves(OnStart(SUSPENDED, None));
    var ready := OnOpenJournal(OnStart(SUSPENDED, None));
    ToolMoves(ready);
    ToolMoves(OnPrepareTool(ready, TOOL, COMMAND, 0));
    ProcessMoves(OnBeginTool(OnPrepareTool(ready, TOOL, COMMAND, 0), TOOL));
    ReachesStarted();
  }

  /** The second recovery saw the old suspension before the journal became unreadable. */
  lemma ConcludesBlindly()
    ensures
      var t := OnConclude(STARTED, Broken(Some(LOST_CONTROLLER)));
      t.c.launch.LaunchSuspended? && t.j == STARTED.j && t.c.commands == map[]
  {
    assert !UnknownOutcome(SPEC, STARTED.c);
  }

  /** "A suspended attempt has no started tool without a receipt" fails of the code: a run from a claimed attempt that
      ends suspended over a command whose outcome nobody knows, because the journal broke off after an earlier
      suspension had been read. */
  lemma SuspensionCanHideATool()
    ensures
      var s := Run(CLAIMED, BOOT + STEP + CALL + RECOVERY + SECOND + [BLIND_END]);
      Created(CLAIMED) && s.c.launch.LaunchSuspended? && UnknownTool(s.j, s.c)
  {
    hide Run, Next, OnConclude, Created;
    ClaimedIsCreated();
    FirstRun();
    CallRun();
    RecoveryRun();
    SecondRun();
    RunOfParts(CLAIMED, BOOT + STEP, CALL);
    RunOfParts(CLAIMED, BOOT + STEP + CALL, RECOVERY);
    RunOfParts(CLAIMED, BOOT + STEP + CALL + RECOVERY, SECOND);
    Append(CLAIMED, BOOT + STEP + CALL + RECOVERY + SECOND, BLIND_END);
    RecoveryMoves(STARTED, 0, Broken(Some(LOST_CONTROLLER)));
    ConcludesBlindly();
    var t := OnConclude(STARTED, Broken(Some(LOST_CONTROLLER)));
    assert UnfinishedTool(t.j, t.c, TOOL);
  }

  // ---- A grant that no recovery releases ----

  const REFUSE: seq<Move> := [MarkSent, CallProvider, ProviderRefuses, Record]
  const REPORT: seq<Move> := [Deliver(1), Deliver(2), Retry, Ask]
  const GRANT_AGAIN: seq<Move> := [AnswerPermit(TERMS), Crash]
  const RELEASE: seq<Move> := [RecoverRow(0), RecoverUnsent(0, 0), RecoverUnsent(0, 1), RecoverFirst,
      Conclude(Readable)]

  const REFUSED := GRANTED.(
    j := GRANTED.j.(models := map[0 := ModelRow([], CallNotSent, Some(0), None, 1)], events := [StartedEvent, REFUSAL]),
    w := Idle, calls := [ProviderCall(0, 0, 1, ProvedUnsent)])

  const UNSENT := FirstPermit(Ledger.NotSent, None).(actualTokens := Some(0))

  const RETRYING := REFUSED.(
    j := REFUSED.j.(models := map[0 := ModelRow([], Prepared, Some(0), None, 1)]),
    c := REFUSED.c.(ledger := Company([UNSENT]), inbox := map[1 := StartedEvent, 2 := REFUSAL],
        lastSequence := 2, applied := [StartedEvent, REFUSAL]),
    w := Asking(0), rpc := AskPermit(0, []))

  /** The second permit has been granted; the process dies before it marks the call sent. */
  const STUCK := RETRYING.(
    c := RETRYING.c.(ledger := Company([UNSENT, FirstPermit(Ledger.Sent, None)]),
        grants := map[0 := Grant(0, 1), 1 := Grant(0, 1)]),
    w := Down, rpc := NoRpc)

  lemma RefuseRun()
    ensures Run(GRANTED, REFUSE) == REFUSED
  {
    hide Next, Run, OnMarkSent, OnCallProvider, OnRefusal, OnRecord;
    Four(GRANTED, MarkSent, CallProvider, ProviderRefuses, Record);
    CallingMoves(GRANTED);
    CallingMoves(OnMarkSent(GRANTED));
    CallingMoves(OnCallProvider(OnMarkSent(GRANTED)));
    CallingMoves(OnRefusal(OnCallProvider(OnMarkSent(GRANTED))));
    ReachesRefused();
  }

  lemma ReachesRefused()
    ensures OnRecord(OnRefusal(OnCallProvider(OnMarkSent(GRANTED)))) == REFUSED
  {
  }

  lemma ReportsRefusal()
    ensures
      OnDeliver(OnDeliver(REFUSED, 1), 2) == REFUSED.(c := RETRYING.c)
  {
    hide OnDeliver, Drain;
    DeliversStart(REFUSED);
    var s := OnDeliver(REFUSED, 1);
    DeliversNext(s, 2);
    assert Ledger.Fail(s.c.ledger, 0, true) == Company([UNSENT]);
    assert OnDeliver(s, 2).c.inbox == RETRYING.c.inbox;
    assert OnDeliver(s, 2).c.applied == RETRYING.c.applied;
  }

  lemma AsksAgain()
    ensures OnAsk(OnRetry(REFUSED.(c := RETRYING.c))) == RETRYING
  {
  }

  lemma ReportRun()
    ensures Run(REFUSED, REPORT) == RETRYING
  {
    hide Next, Run, OnDeliver, OnRetry, OnAsk;
    Four(REFUSED, Deliver(1), Deliver(2), Retry, Ask);
    RecoveryMoves(REFUSED, 1, Readable);
    RecoveryMoves(OnDeliver(REFUSED, 1), 2, Readable);
    ReportsRefusal();
    CallingMoves(REFUSED.(c := RETRYING.c));
    SteppingMoves(OnRetry(REFUSED.(c := RETRYING.c)));
    AsksAgain();
  }

  lemma PreparesAgain()
    ensures
      Ledger.Prepare(Company([UNSENT]), CallFor(SPEC, RETRYING.c, 0, [], TERMS))
      == Ledger.Outcome(Company([UNSENT, FirstPermit(Ledger.Sent, None)]), Ok(Ledger.Granted(1)))
  {
    CallCosts();
    hide Money.ReserveMicros;
    assert ScopeRefusal(SPEC, RETRYING.c).None?;
    Ledger.SumAppend(Ledger.SpentOf, [], UNSENT);
    Ledger.SumAppend(Ledger.HeldOf, [], UNSENT);
    assert [] + [UNSENT] == [UNSENT];
  }

  lemma GrantsAgain()
    ensures OnCrash(OnAnswerPermit(RETRYING, TERMS)) == STUCK
  {
    PreparesAgain();
    hide Ledger.Prepare;
    assert RETRYING.c.grants[1 := Grant(0, 1)] == STUCK.c.grants;
  }

  lemma GrantAgainRun()
    ensures Run(RETRYING, GRANT_AGAIN) == STUCK
  {
    hide Next, OnAnswerPermit, OnCrash;
    Append(RETRYING, [], AnswerPermit(TERMS));
    Append(RETRYING, [AnswerPermit(TERMS)], Crash);
    assert [] + [AnswerPermit(TERMS)] == [AnswerPermit(TERMS)] && [AnswerPermit(TERMS)] + [Crash] == GRANT_AGAIN;
    OpeningMoves(RETRYING);
    ProcessMoves(OnAnswerPermit(RETRYING, TERMS));
    GrantsAgain();
  }

  lemma StuckRun()
    ensures Run(CLAIMED, BOOT + STEP + REFUSE + REPORT + GRANT_AGAIN) == STUCK
  {
    hide Run, Next;
    FirstRun();
    RefuseRun();
    ReportRun();
    GrantAgainRun();
    RunOfParts(CLAIMED, BOOT + STEP, REFUSE);
    RunOfParts(CLAIMED, BOOT + STEP + REFUSE, REPORT);
    RunOfParts(CLAIMED, BOOT + STEP + REFUSE + REPORT, GRANT_AGAIN);
  }

  lemma ReleaseRecovers()
    ensures Recovery(RELEASE)
  {
    forall i | 0 <= i < |RELEASE| ensures Recovers(RELEASE[i]) {
      assert RELEASE[i] in {RecoverRow(0), RecoverUnsent(0, 0), RecoverUnsent(0, 1), RecoverFirst, Conclude(Readable)};
    }
  }

  /** For one row and two grants of it. */
  lemma CoversRow(s: System, moves: seq<Move>)
    requires s.j.models.Keys == {0} && s.c.grants.Keys == {0, 1} && Recovery(moves)
    requires RecoverRow(0) in moves && RecoverUnsent(0, 0) in moves && RecoverUnsent(0, 1) in moves
    requires RecoverFirst in moves
    ensures Whole(s, moves)
  {
    hide Recovery;
    forall k | k in s.j.models ensures k == 0 {
      assert k in s.j.models.Keys;
    }
    forall p | p in s.c.grants ensures p == 0 || p == 1 {
      assert p in s.c.grants.Keys;
    }
  }

  lemma ReleaseIsWhole(s: System)
    requires s.j.models.Keys == {0} && s.c.grants.Keys == {0, 1}
    ensures Whole(s, RELEASE) && Concluded(RELEASE)
  {
    hide Recovery, Whole;
    ReleaseRecovers();
    assert RELEASE[0] == RecoverRow(0) && RELEASE[1] == RecoverUnsent(0, 0) && RELEASE[2] == RecoverUnsent(0, 1);
    assert RELEASE[3] == RecoverFirst && RELEASE[4].Conclude?;
    CoversRow(s, RELEASE);
  }

  /** "An unused grant is released" fails of the code: a run from a claimed attempt in which a second grant makes no
      call, and after a whole recovery is still open, its money held, the attempt blocked for the owner. */
  lemma RecoveryCanMissAGrant()
    ensures
      var s := Run(CLAIMED, BOOT + STEP + REFUSE + REPORT + GRANT_AGAIN);
      var t := Run(s, RELEASE);
      && Created(CLAIMED) && MayRecover(s) && Whole(s, RELEASE) && SecondGrant(s, 0, 1) && Uncalled(s.calls, 1)
      && LeftToTheOwner(s, t, 1, true) && Ledger.Held(t.c.ledger) >= RESERVED
      && t.c.attempt.Blocked? && t.c.reason == "CALL_OUTCOME_UNKNOWN"
  {
    hide Run, Next, Created, Whole, Concluded, Ledger.Held;
    ClaimedIsCreated();
    StuckRun();
    ReleaseIsWhole(STUCK);
    WholeIsRecovery(STUCK, RELEASE);
    SecondGrantStaysHeld(CLAIMED, BOOT + STEP + REFUSE + REPORT + GRANT_AGAIN, RELEASE, 0, 1);
  }

  // ---- A journal that no replay can apply ----

  /** The controller restarts while the answer waits in the journal, and the owner enters another bill. */
  const SETTLE: seq<Move> := [ControllerRestart, Elsewhere(Ledger.ReconcileOp(0, 1, 1)), Crash]

  const BILLED := FirstPermit(Ledger.Settled, None).(settledMicros := Some(1), actualTokens := Some(1))

  const SETTLED := ANSWERED.(c := ANSWERED.c.(ledger := Company([BILLED])), w := Down, connected := false)

  lemma ReachesSettled()
    ensures OnCrash(OnElsewhere(OnControllerRestart(ANSWERED), Ledger.ReconcileOp(0, 1, 1))) == SETTLED
  {
    var l := Ledger.Restart(ANSWERED.c.ledger);
    assert l == Company([FirstPermit(Ledger.Unknown, None)]);
    assert l.permits[0 := BILLED] == [BILLED];
    assert Ledger.Reconcile(l, 0, 1, 1) == Ok(Company([BILLED]));
  }

  lemma SettleRun()
    ensures Run(ANSWERED, SETTLE) == SETTLED
  {
    hide Next, Run, OnControllerRestart, OnElsewhere, OnCrash;
    var op := Ledger.ReconcileOp(0, 1, 1);
    Three(ANSWERED, ControllerRestart, Elsewhere(op), Crash);
    LedgerMoves(ANSWERED, op);
    LedgerMoves(OnControllerRestart(ANSWERED), op);
    ProcessMoves(OnElsewhere(OnControllerRestart(ANSWERED), op));
    ReachesSettled();
  }

  /** "Recovery applies the whole journal" fails of the code: a run from a claimed attempt after which a journaled
      answer cannot be applied, because the owner has settled the call to an amount the answer does not state. */
  lemma ReplayCanStop()
    ensures
      var s := Run(CLAIMED, BOOT + STEP + CALL + SETTLE);
      var t := Run(s, Replay(|s.j.events|));
      && Created(CLAIMED) && MayRecover(s) && !AllPayable(s.c, s.j.events) && t.c.lastSequence < |s.j.events|
  {
    hide Run, Next, Created, AllPayable;
    ClaimedIsCreated();
    FirstRun();
    CallRun();
    SettleRun();
    RunOfParts(CLAIMED, BOOT + STEP, CALL);
    RunOfParts(CLAIMED, BOOT + STEP + CALL, SETTLE);
    var all := BOOT + STEP + CALL + SETTLE;
    AnswerIsUnpayable();
    ReplayCompletesExactlyWhenPayable(CLAIMED, all);
    RunKeepsInv(CLAIMED, all);
    PartsOfInv(SETTLED);
    ReplayKeeps(SETTLED, |SETTLED.j.events|);
    InboxWithinJournal(Run(SETTLED, Replay(2)));
  }

  lemma InboxWithinJournal(s: System)
    requires DeliveryInv(s)
    ensures s.c.lastSequence <= |s.j.events|
  {
  }

  lemma AnswerIsUnpayable()
    ensures !AllPayable(SETTLED.c, SETTLED.j.events)
  {
    assert Money.BillOf(PRICE, SILENT.usage) == Ok(None);
    assert SETTLED.j.events[1] == ANSWER && !Payable(SETTLED.c, ANSWER);
  }
}
