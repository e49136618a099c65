/** The correction of an answer's format: how often it can happen when the step and the event that says so are two
    transactions. */
module WorkerCorrections {
  import opened Wrappers
  import opened AttemptStates
  import opened Journal
  import opened WorkerProtocol
  import opened WorkerRuns
  import opened WorkerTheorems
  import opened WorkerLimits
  import Ledger
  import Money

  /** A correction begins: the checkpoint has moved on, the event is not written yet. */
  predicate Begins(s: System, m: Move) {
    m.BeginCorrection? && OnBeginCorrection(s, m.entries).w.Correcting? && !s.w.Correcting?
  }

  /** The process dies in between. */
  predicate Lapses(s: System, m: Move) {
    m.Crash? && s.w.Correcting?
  }

  /** How many corrections a run makes. */
  function Corrections(s: System, moves: seq<Move>): nat {
    if moves == [] then 0
    else
      var before, m := moves[..|moves| - 1], moves[|moves| - 1];
      Corrections(s, before) + if Begins(Run(s, before), m) then 1 else 0
  }

  /** How many of them the process did not live to record. */
  function Unrecorded(s: System, moves: seq<Move>): nat {
    if moves == [] then 0
    else
      var before, m := moves[..|moves| - 1], moves[|moves| - 1];
      Unrecorded(s, before) + if Lapses(Run(s, before), m) then 1 else 0
  }

  /** Corrections in the journal, and in progress. */
  ghost function Standing(s: System): nat {
    if s.w.Correcting? || CorrectionEvent in s.j.events then 1 else 0
  }

  ghost predicate OneAtATime(s: System) {
    s.w.Correcting? ==> CorrectionEvent !in s.j.events
  }

  /** Neither the event nor the phase changes. */
  ghost predicate Unconcerned(s: System, t: System) {
    && t.w.Correcting? == s.w.Correcting?
    && (CorrectionEvent in t.j.events <==> CorrectionEvent in s.j.events)
  }

  lemma CallsUnconcerned(s: System, m: Move)
    requires ModelMove(m) && !m.BeginCorrection?
    ensures Unconcerned(s, Next(s, m))
  {
    hide ToolNext, ProcessNext, LeavingNext, RecoveryNext, ControllerNext;
  }

  lemma ToolsUnconcerned(s: System, m: Move)
    requires WorkerToolMove(m)
    ensures Unconcerned(s, Next(s, m))
  {
    hide ModelNext, ProcessNext, LeavingNext, RecoveryNext, ControllerNext;
  }

  lemma ProcessUnconcerned(s: System, m: Move)
    requires ToolMove(m) && !WorkerToolMove(m) && !m.Crash?
    ensures Unconcerned(s, Next(s, m))
  {
    hide ModelNext, ToolNext, LeavingNext, RecoveryNext, ControllerNext;
  }

  lemma EndsUnconcerned(s: System, m: Move)
    requires LeavingMove(m) && !m.Correct?
    ensures Unconcerned(s, Next(s, m))
  {
    hide ModelNext, ToolNext, ProcessNext, RecoveryNext, ControllerNext;
  }

  lemma ControllerUnconcerned(s: System, m: Move)
    requires !ModelMove(m) && !ToolMove(m) && !LeavingMove(m)
    ensures Unconcerned(s, Next(s, m))
  {
    hide ModelNext, ToolNext, ProcessNext, LeavingNext, WorkerProtocol.Receive, Decide, Authorize, IntentRefusal;
    ControllerMovesKeepJournal(s, m);
  }

  lemma OthersUnconcerned(s: System, m: Move)
    requires !m.BeginCorrection? && !m.Correct? && !m.Crash?
    ensures Unconcerned(s, Next(s, m))
  {
    hide Next, Unconcerned;
    if ModelMove(m) {
      CallsUnconcerned(s, m);
    } else if WorkerToolMove(m) {
      ToolsUnconcerned(s, m);
    } else if ToolMove(m) {
      ProcessUnconcerned(s, m);
    } else if LeavingMove(m) {
      EndsUnconcerned(s, m);
    } else {
      ControllerUnconcerned(s, m);
    }
  }

  lemma CorrectionStep(s: System, m: Move)
    requires OneAtATime(s) && (m.BeginCorrection? || m.Correct? || m.Crash?)
    ensures
      var t := Next(s, m);
      && OneAtATime(t)
      && Standing(t) + (if Lapses(s, m) then 1 else 0) == Standing(s) + if Begins(s, m) then 1 else 0
  {
    hide ToolNext, RecoveryNext, ControllerNext;
    if m.BeginCorrection? {
      var e := AdvanceEvent(s.j.nextStep + 1);
      assert CorrectionEvent in s.j.events + [e] <==> CorrectionEvent in s.j.events;
    } else if m.Correct? {
      assert (s.j.events + [CorrectionEvent])[|s.j.events|] == CorrectionEvent;
    }
  }

  /** In every run the corrections are exactly the one recorded or in progress, if any, and those whose process died
      before it could record them: an attempt corrects at most once more than its process dies in that moment. */
  lemma {:induction false} CorrectionsExactly(s0: System, moves: seq<Move>)
    requires Created(s0)
    ensures OneAtATime(Run(s0, moves))
    ensures Corrections(s0, moves) == Standing(Run(s0, moves)) + Unrecorded(s0, moves) <= 1 + Unrecorded(s0, moves)
  {
    hide Next, Begins, Lapses;
    if moves != [] {
      var s, m := Run(s0, moves[..|moves| - 1]), moves[|moves| - 1];
      CorrectionsExactly(s0, moves[..|moves| - 1]);
      if m.BeginCorrection? || m.Correct? || m.Crash? {
        CorrectionStep(s, m);
      } else {
        OthersUnconcerned(s, m);
        NeitherHappens(s, m);
      }
    }
  }

  lemma NeitherHappens(s: System, m: Move)
    requires !m.BeginCorrection? && !m.Crash?
    ensures !Begins(s, m) && !Lapses(s, m)
  {
  }

  // ---- A run that corrects twice ----

  lemma {:induction false} CorrectionsOfParts(s: System, xs: seq<Move>, ys: seq<Move>)
    ensures Corrections(s, xs + ys) == Corrections(s, xs) + Corrections(Run(s, xs), ys)
  {
    hide Next, Begins;
    if ys == [] {
      assert xs + ys == xs;
    } else {
      CorrectionsOfParts(s, xs, ys[..|ys| - 1]);
      RunOfParts(s, xs, ys[..|ys| - 1]);
      assert (xs + ys)[..|xs + ys| - 1] == xs + ys[..|ys| - 1];
    }
  }

  const CORRECTION: seq<Move> := [BeginCorrection([])]
  const HEAR: seq<Move> := [Crash, Deliver(1), Deliver(2), Deliver(3), Conclude(Readable)]
  const RESUME: seq<Move> := [Start(None), OpenJournal, WorkerReady(false), OpenStep, Ask]
  const CALL_AGAIN: seq<Move> := [AnswerPermit(TERMS), MarkSent, CallProvider, ProviderAnswers(SILENT), Record]

  const ADVANCED := AdvanceEvent(1)

  const CORRECTING := ANSWERED.(
    j := ANSWERED.j.(nextStep := 1, events := [StartedEvent, ANSWER, ADVANCED]), w := Correcting)

  const HEARD := CORRECTING.(w := Down,
    c := Heard(ADVANCED).(attempt := Suspended, reason := LOST_CONTROLLER, stops := {1}, launch := LaunchSuspended))

  const FIRST_ROW := ModelRow([], Responded, Some(0), Some(SILENT), 1)

  const RESUMED := HEARD.(
    j := HEARD.j.(models := map[0 := FIRST_ROW, 1 := FreshModel([])]),
    c := HEARD.c.(attempt := Running, reason := "", launch := LaunchRunning, epoch := 2),
    w := Asking(1), rpc := AskPermit(1, []))

  const SECOND_PERMIT := FirstPermit(Ledger.Sent, None).(source := Some(SourceOf(SPEC, 1)),
    request := Ledger.StepRequest(1, []))

  const PERMITTED := RESUMED.(
    c := RESUMED.c.(ledger := Company([FirstPermit(Ledger.Unknown, Some(SILENT)), SECOND_PERMIT]),
        grants := map[0 := Grant(0, 1), 1 := Grant(1, 2)]),
    w := Permitted(1, 1), rpc := NoRpc)

  lemma BeginsFirst()
    ensures Run(ANSWERED, CORRECTION) == CORRECTING && Corrections(ANSWERED, CORRECTION) == 1
  {
    hide ToolNext, ProcessNext, LeavingNext, RecoveryNext, ControllerNext;
    assert CORRECTION[..0] == [];
    assert [StartedEvent, ANSWER] + [ADVANCED] == [StartedEvent, ANSWER, ADVANCED];
  }

  lemma ConcludesHeard()
    ensures OnConclude(CORRECTING.(w := Down, c := Heard(ADVANCED)), Readable) == HEARD
  {
    var s := CORRECTING.(w := Down, c := Heard(ADVANCED));
    assert s.j.events[..2] == [StartedEvent, ANSWER] && [StartedEvent, ANSWER][..1] == [StartedEvent];
    assert [StartedEvent][..0] == [];
    assert LastSuspension([StartedEvent]) == None && LastSuspension([StartedEvent, ANSWER]) == None;
    assert LastSuspension(s.j.events) == None;
    assert !UnknownOutcome(SPEC, s.c) && !UnknownTool(s.j, s.c);
    assert {} + {1} == {1};
  }

  lemma HearRun()
    ensures Run(CORRECTING, HEAR) == HEARD
  {
    hide Next, Run, OnDeliver, OnConclude, OnCrash;
    Five(CORRECTING, Crash, Deliver(1), Deliver(2), Deliver(3), Conclude(Readable));
    var s := CORRECTING.(w := Down);
    ProcessMoves(CORRECTING);
    Crashes();
    RecoveryMoves(s, 1, Readable);
    RecoveryMoves(OnDeliver(s, 1), 2, Readable);
    RecoveryMoves(OnDeliver(OnDeliver(s, 1), 2), 3, Readable);
    DeliversThree(s, ADVANCED);
    RecoveryMoves(s.(c := Heard(ADVANCED)), 0, Readable);
    ConcludesHeard();
  }

  lemma Crashes()
    ensures OnCrash(CORRECTING) == CORRECTING.(w := Down)
  {
  }

  lemma Readies(s: System)
    ensures Next(s, WorkerReady(false)) == OnReady(s, false)
  {
    hide ModelNext, ToolNext, ProcessNext, LeavingNext, RecoveryNext, OnReady;
  }

  lemma ResumesReady()
    ensures
      OnReady(OnOpenJournal(OnStart(HEARD, None)), false) ==
      RESUMED.(j := HEARD.j, w := Idle, rpc := NoRpc)
  {
  }

  lemma ResumesAsking()
    ensures OnAsk(OnStep(RESUMED.(j := HEARD.j, w := Idle, rpc := NoRpc))) == RESUMED
  {
    assert map[0 := FIRST_ROW][1 := FreshModel([])] == map[0 := FIRST_ROW, 1 := FreshModel([])];
  }

  lemma ResumeRun()
    ensures Run(HEARD, RESUME) == RESUMED
  {
    hide Next, Run, OnStart, OnOpenJournal, OnReady, OnStep, OnAsk;
    Five(HEARD, Start(None), OpenJournal, WorkerReady(false), OpenStep, Ask);
    OpeningMoves(HEARD);
    ProcessMoves(OnStart(HEARD, None));
    Readies(OnOpenJournal(OnStart(HEARD, None)));
    ResumesReady();
    var ready := RESUMED.(j := HEARD.j, w := Idle, rpc := NoRpc);
    SteppingMoves(ready);
    SteppingMoves(OnStep(ready));
    ResumesAsking();
  }

  lemma PreparesSecond()
    ensures
      Ledger.Prepare(RESUMED.c.ledger, CallFor(SPEC, RESUMED.c, 1, [], TERMS))
      == Ledger.Outcome(PERMITTED.c.ledger, Ok(Ledger.Granted(1)))
  {
    CallCosts();
    hide Money.ReserveMicros;
    var first := FirstPermit(Ledger.Unknown, Some(SILENT));
    assert ScopeRefusal(SPEC, RESUMED.c).None?;
    Ledger.SumAppend(Ledger.SpentOf, [], first);
    Ledger.SumAppend(Ledger.HeldOf, [], first);
    assert [] + [first] == [first];
    assert [first][..0] == [];
    assert Ledger.LivePermit([first], SourceOf(SPEC, 1)) == None;
  }

  lemma PermitsSecond()
    ensures OnAnswerPermit(RESUMED, TERMS) == PERMITTED
  {
    PreparesSecond();
    hide Ledger.Prepare;
    assert RESUMED.c.grants[1 := Grant(1, 2)] == PERMITTED.c.grants;
  }

  const CALLED := PERMITTED.(
    j := PERMITTED.j.(models := map[0 := FIRST_ROW, 1 := ModelRow([], CallSent, Some(1), None, 1)]),
    w := Calling(1, 1), calls := [ProviderCall(0, 0, 1, Delivered), ProviderCall(1, 1, 1, InDoubt)])

  lemma CallsAgain()
    ensures OnCallProvider(OnMarkSent(PERMITTED)) == CALLED
  {
    assert PERMITTED.j.models[1 := ModelRow([], CallSent, Some(1), None, 1)] == CALLED.j.models;
    assert [ProviderCall(0, 0, 1, Delivered)] + [ProviderCall(1, 1, 1, InDoubt)] == CALLED.calls;
  }

  /** The second answer is journaled: the worker is idle at its second step. */
  lemma AnswersAgain()
    ensures
      var s := OnRecord(OnAnswer(CALLED, SILENT));
      && s.w.Idle? && s.spec == SPEC && s.j.terminal.None? && s.j.nextStep == 1
      && 1 in s.j.models && s.j.models[1].state.Responded? && CorrectionEvent !in s.j.events
  {
    var s := OnRecord(OnAnswer(CALLED, SILENT));
    assert s.j.events == [StartedEvent, ANSWER, ADVANCED] + [AnswerEvent(1, 1, SILENT)];
  }

  lemma BeginsAgain(s: System)
    requires s.w.Idle? && s.spec == SPEC && s.j.terminal.None? && s.j.nextStep == 1
    requires 1 in s.j.models && s.j.models[1].state.Responded? && CorrectionEvent !in s.j.events
    ensures Corrections(s, CORRECTION) == 1
  {
    assert CORRECTION[..0] == [];
  }

  lemma CallAgainRun()
    ensures
      Run(RESUMED, CALL_AGAIN) == OnRecord(OnAnswer(OnCallProvider(OnMarkSent(PERMITTED)), SILENT))
  {
    hide Next, Run, OnAnswerPermit, OnMarkSent, OnCallProvider, OnAnswer, OnRecord;
    Five(RESUMED, AnswerPermit(TERMS), MarkSent, CallProvider, ProviderAnswers(SILENT), Record);
    OpeningMoves(RESUMED);
    PermitsSecond();
    CallingMoves(PERMITTED);
    CallingMoves(OnMarkSent(PERMITTED));
    CallingMoves(OnCallProvider(OnMarkSent(PERMITTED)));
    CallingMoves(OnAnswer(OnCallProvider(OnMarkSent(PERMITTED)), SILENT));
  }

  /** "The format is corrected once" fails of the code: a run from a claimed attempt that corrects two answers, because
      its process dies between the step and the event that records the first correction. */
  lemma FormatCanBeCorrectedTwice()
    ensures
      var first := BOOT + STEP + CALL;
      var all := first + CORRECTION + HEAR + RESUME + CALL_AGAIN + CORRECTION;
      Created(CLAIMED) && Corrections(CLAIMED, all) >= 2
  {
    hide Next, Run, Created, Corrections, OnMarkSent, OnCallProvider, OnAnswer, OnRecord;
    var first := BOOT + STEP + CALL;
    ClaimedIsCreated();
    FirstRun();
    CallRun();
    RunOfParts(CLAIMED, BOOT + STEP, CALL);
    BeginsFirst();
    CorrectionsOfParts(CLAIMED, first, CORRECTION);
    RunOfParts(CLAIMED, first, CORRECTION);
    HearRun();
    CorrectionsOfParts(CLAIMED, first + CORRECTION, HEAR);
    RunOfParts(CLAIMED, first + CORRECTION, HEAR);
    ResumeRun();
    CorrectionsOfParts(CLAIMED, first + CORRECTION + HEAR, RESUME);
    RunOfParts(CLAIMED, first + CORRECTION + HEAR, RESUME);
    CallAgainRun();
    CallsAgain();
    AnswersAgain();
    CorrectionsOfParts(CLAIMED, first + CORRECTION + HEAR + RESUME, CALL_AGAIN);
    RunOfParts(CLAIMED, first + CORRECTION + HEAR + RESUME, CALL_AGAIN);
    BeginsAgain(Run(RESUMED, CALL_AGAIN));
    CorrectionsOfParts(CLAIMED, first + CORRECTION + HEAR + RESUME + CALL_AGAIN, CORRECTION);
  }
}
