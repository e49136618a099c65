/** Whole runs of the supervisor: recovery always converges, a rollback reaches its target, deletions never touch the
    ancestry. */
module SupervisorRuns {
  import opened Wrappers
  import opened ReleaseHistory
  import opened Ancestry
  import opened Supervisor
  import opened SupervisorResults

  // ---- Recovery ----

  lemma {:induction false} NothingToDelete(m: Machine, i: nat)
    requires !m.halt.Alive? || forall j :: i <= j < |m.s.candidates| ==> !m.s.candidates[j].state.Deleting?
    ensures FinishDeletions(m, i) == m
    decreases |m.s.candidates| - i
  {
    if i < |m.s.candidates| {
      NothingToDelete(m, i + 1);
    }
  }

  lemma {:induction false} NothingInTransition(m: Machine, i: nat)
    requires !m.halt.Alive? || forall j :: i <= j < |m.s.candidates| ==> !InTransition(m.s.candidates[j])
    ensures FinishTransitions(m, i) == m
    decreases |m.s.candidates| - i
  {
    if i < |m.s.candidates| {
      NothingInTransition(m, i + 1);
    }
  }

  /** The loop passes over finished candidates until it meets the unfinished one. */
  lemma {:induction false} FirstDeletion(m: Machine, i: nat, u: nat)
    requires m.halt.Alive? && i <= u < |m.s.candidates| && forall j :: i <= j < u ==> !m.s.candidates[j].state.Deleting?
    ensures FinishDeletions(m, i) == FinishDeletions(m, u)
    decreases u - i
  {
    if i < u {
      FirstDeletion(m, i + 1, u);
    }
  }

  lemma {:induction false} FirstTransition(m: Machine, i: nat, u: nat)
    requires m.halt.Alive? && i <= u < |m.s.candidates| && forall j :: i <= j < u ==> !InTransition(m.s.candidates[j])
    ensures FinishTransitions(m, i) == FinishTransitions(m, u)
    decreases u - i
  {
    if i < u {
      FirstTransition(m, i + 1, u);
    }
  }

  /** When a candidate is in transition, recovery is its restoration. */
  lemma RecoverIsRestore(m: Machine, u: nat)
    requires m.halt.Alive? && Inv(m.s) && u < |m.s.candidates| && InTransition(m.s.candidates[u])
    ensures
      var t := Restore(m, u, GenFailed);
      (t.halt.Alive? ==> !AnyUnfinished(t.s)) ==> Recover(m) == t
  {
    hide LineageOk, BirthsOk, CandidateOk, StageOk;
    NothingToDelete(m, 0);
    FirstTransition(m, 0, u);
    var t := Restore(m, u, GenFailed);
    if t.halt.Alive? ==> !AnyUnfinished(t.s) {
      NothingInTransition(t, u + 1);
    }
  }

  lemma RecoverIsDelete(m: Machine, u: nat)
    requires m.halt.Alive? && Inv(m.s) && u < |m.s.candidates| && Doomed(m.s, u)
    ensures
      var t := DeleteRelease(m, u, m.s.intents[u].active);
      (t.halt.Alive? ==> !AnyUnfinished(t.s)) ==> Recover(m) == t
  {
    hide LineageOk, BirthsOk, CandidateOk, StageOk;
    FirstDeletion(m, 0, u);
    var t := DeleteRelease(m, u, m.s.intents[u].active);
    if t.halt.Alive? ==> !AnyUnfinished(t.s) {
      NothingToDelete(t, u + 1);
      NothingInTransition(t, 0);
    }
  }

  lemma RecoverIsIdle(m: Machine)
    requires m.halt.Alive? && Clean(m.s)
    ensures Recover(m) == m
  {
    NothingToDelete(m, 0);
    NothingInTransition(m, 0);
  }

  /** Recovery keeps the invariant wherever the process dies again; it never meets a conflict; and a recovery that
      completes, as one with six writes left does, leaves nothing unfinished and all three stores naming the one active
      generation. */
  lemma RecoverConverges(m: Machine)
    requires m.halt.Alive? && Inv(m.s)
    ensures
      var t := Recover(m);
      Inv(t.s) && !t.halt.Threw? && (RESTORE_WRITES <= m.left ==> t.halt.Alive?) && (t.halt.Alive? ==> Clean(t.s))
  {
    if Clean(m.s) {
      RecoverIsIdle(m);
    } else {
      var u :| 0 <= u < |m.s.candidates| && (Pre(m.s, u) || Mid(m.s, u) || Doomed(m.s, u));
      hide TablesOk, StageOk;
      if Doomed(m.s, u) {
        DeleteKeeps(m, u, m.s.intents[u].active);
        RecoverIsDelete(m, u);
      } else {
        RestoreKeeps(m, u, GenFailed);
        RecoverIsRestore(m, u);
      }
    }
  }

  /** What a clean state is worth: one active generation, named by the pointer and by the active release, and no
      generation half born. */
  lemma CleanMeansAgreement(s: State)
    requires Inv(s) && Clean(s)
    ensures exists a :: a in s.generations && Consistent(s, a) && forall g :: g in s.generations ==>
        (s.generations[g].state.GenActive? <==> g == a)
    ensures forall i :: 0 <= i < |s.candidates| ==>
        !s.candidates[i].state.Birthing? && !s.candidates[i].state.RollingBack? && !s.candidates[i].state.Deleting?
    ensures forall g :: g in s.generations ==> !s.generations[g].state.GenBirthing?
  {
    forall i | 0 <= i < |s.candidates| ensures !Unfinished(s.candidates[i]) {
    }
    var a :| a in s.generations && Consistent(s, a);
    forall g | g in s.generations ensures s.generations[g].state.GenActive? <==> g == a {
      assert s.generations[g].state.GenActive? <==> Active(s.generations, g);
    }
  }

  // ---- Runs ----

  /** What the owner and the restarted process may do; `left` says how many durable writes the process lives for. */
  datatype Command =
    | Submit(base: nat, manifest: nat)
    | Review(id: nat, verdict: RecordState)
    | BirthCommand(id: nat, fail: Option<nat>, left: nat)
    | RecoverCommand(left: nat)
    | RollbackCommand(id: nat, left: nat)
    | RollbackToCommand(target: nat, expected: nat, left: nat)
    | DeleteCommand(id: nat, expected: nat, left: nat)
    | DeleteNewerCommand(expected: nat, left: nat)

  /** Submission, validation and approval move a candidate that is not yet published. */
  function Reviewed(s: State, id: nat, verdict: RecordState): State {
    if id < |s.candidates| && Consistent(s, s.candidates[id].base)
       && ((s.candidates[id].state.Submitted? && verdict.Validated?)
           || ((s.candidates[id].state.Validated? || s.candidates[id].state.Approved?) && verdict.Approved?))
    then s.(candidates := s.candidates[id := s.candidates[id].(state := verdict)])
    else s
  }

  function Submitted(s: State, base: nat, manifest: nat): State {
    if Consistent(s, base) then
      s.(candidates := s.candidates + [Candidate(RecordState.Submitted, NoPhase, None, base,
          s.generations[base].release, manifest)],
         files := s.files + {Built(|s.candidates|)})
    else s
  }

  function Step(s: State, c: Command): State {
    match c
    case Submit(base, manifest) => Submitted(s, base, manifest)
    case Review(id, verdict) => Reviewed(s, id, verdict)
    case BirthCommand(id, fail, left) => Birth(Machine(s, left, Alive), id, fail).s
    case RecoverCommand(left) => Recover(Machine(s, left, Alive)).s
    case RollbackCommand(id, left) => Rollback(Machine(s, left, Alive), id).s
    case RollbackToCommand(target, expected, left) => RollbackTo(Machine(s, left, Alive), target, expected).s
    case DeleteCommand(id, expected, left) => DeleteRelease(Machine(s, left, Alive), id, expected).s
    case DeleteNewerCommand(expected, left) => DeleteNewerReleases(Machine(s, left, Alive), expected).s
  }

  function Run(s: State, cs: seq<Command>): State {
    if cs == [] then s else Step(Run(s, cs[..|cs| - 1]), cs[|cs| - 1])
  }

  /** Recovery comes before any other command when something was left unfinished. */
  predicate RecoversFirst(s: State, cs: seq<Command>) {
    cs == [] || (RecoversFirst(s, cs[..|cs| - 1])
        && (cs[|cs| - 1].RecoverCommand? || !AnyUnfinished(Run(s, cs[..|cs| - 1]))))
  }

  lemma InvFinishedIsClean(s: State)
    requires Inv(s) && !AnyUnfinished(s)
    ensures Clean(s)
  {
  }

  lemma BirthKeeps(m: Machine, id: nat, fail: Option<nat>)
    requires m.halt.Alive? && Inv(m.s) && Clean(m.s)
    ensures Inv(Birth(m, id, fail).s)
  {
    if BirthRefusal(m.s, id).None? && !m.s.candidates[id].state.Born? {
      var c := m.s.candidates[id];
      if fail.None? {
        BirthStepsKeep(m, id, BIRTH_WRITES);
      } else if fail.value == 0 {
        FailedBeforeBirth(m.s, id);
      } else {
        var k := if fail.value < BIRTH_WRITES then fail.value else BIRTH_WRITES;
        BirthStepsKeep(m, id, k);
        var t := BirthSteps(m, id, c, k);
        if t.halt.Alive? {
          BirthIsRestorable(t.s, id, c, k);
          RestoreKeeps(t, id, GenFailed);
        }
      }
    }
  }

  lemma FailedBeforeBirth(s: State, id: nat)
    requires Inv(s) && Clean(s) && BirthRefusal(s, id).None?
    ensures Inv(s.(candidates := s.candidates[id := s.candidates[id].(state := Failed, phase := Abandoned)]))
  {
    var row := s.candidates[id].(state := Failed, phase := Abandoned);
    var t := s.(candidates := s.candidates[id := row]);
    assert CandidateOk(s, id);
    NoBirthOf(s, id);
    TablesAfterRow(s, id, row);
    assert Consistent(t, row.base);
    forall j | 0 <= j < |t.candidates| ensures !Unfinished(t.candidates[j]) {
    }
  }

  lemma BirthIsRestorable(s: State, id: nat, c: Candidate, k: nat)
    requires TablesOk(s) && 0 < k <= BIRTH_WRITES && id < |s.candidates| && BirthStage(s, id, c, k)
    ensures Pre(s, id) || Restorable(s, id)
  {
    assert CandidateOk(s, id);
  }

  // ---- Rollback along the ancestry ----

  lemma ActiveBornIsRestorable(s: State, id: nat)
    requires Inv(s) && Clean(s) && id < |s.candidates| && s.candidates[id].state.Born?
    requires s.candidates[id].target.Some? && Active(s.generations, s.candidates[id].target.value)
    ensures Restorable(s, id) && !BeforeSwitch(s.candidates[id])
  {
    assert CandidateOk(s, id);
  }

  /** All a restoration changes besides the three stores. */
  ghost predicate OnlyRestores(s: State, t: State, id: nat, end: GenerationState)
    requires id < |s.candidates| && s.candidates[id].target.Some?
  {
    var c := s.candidates[id];
    && t.generations == SetState(SetState(s.generations, c.target.value, end), c.base, GenActive)
    && t.candidates == s.candidates[id := c.(state := Ending(end), phase := Restored)]
    && t.intents == s.intents && t.files == s.files
  }

  lemma FirstRestoreSteps(m: Machine, id: nat, c: Candidate, previous: Release, end: GenerationState)
    requires m.halt.Alive? && id < |m.s.candidates| && c.target.Some? && m.s.candidates[id] == c
    ensures
      var t := RestoreSteps(m, id, c, previous, end, 3);
      && !t.halt.Threw? && (t.halt.Alive? <==> m.left >= 3)
      && (t.halt.Alive? ==> t == Machine(m.s.(candidates := m.s.candidates[id := c.(state := RollingBack,
          phase := Stopping)], release := previous, pointer := c.base), m.left - 3, Alive))
  {
    hide SetState, Active;
    var m1 := Commit(m, RestoreWrite(id, c, previous, end, 0));
    var m2 := Commit(m1, RestoreWrite(id, c, previous, end, 1));
    assert RestoreSteps(m, id, c, previous, end, 1) == m1;
    assert RestoreSteps(m, id, c, previous, end, 2) == m2;
  }

  lemma RestoreStepsUnfold(m: Machine, id: nat, c: Candidate, previous: Release, end: GenerationState)
    requires m.halt.Alive? && id < |m.s.candidates| && c.target.Some? && m.s.candidates[id] == c
    ensures
      var t := RestoreSteps(m, id, c, previous, end, RESTORE_WRITES);
      && (t.halt.Alive? ==>
          OnlyRestores(m.s, t.s, id, end) && t.s.release == previous && t.s.pointer == c.base
          && t.s.restored == Some(c.base))
      && (t.halt.Threw? ==> t.halt.error == "SQLITE_CONSTRAINT_UNIQUE")
      && (m.left >= RESTORE_WRITES ==>
            (t.halt.Threw? <==>
                exists h ::
                h != c.base && Active(SetState(SetState(m.s.generations, c.target.value, end), c.base, GenActive), h))
                && !t.halt.Died?)
  {
    hide SetState;
    FirstRestoreSteps(m, id, c, previous, end);
    var m3 := RestoreSteps(m, id, c, previous, end, 3);
    var m4 := Commit(m3, RestoreWrite(id, c, previous, end, 3));
    var m5 := Commit(m4, RestoreWrite(id, c, previous, end, 4));
    assert RestoreSteps(m, id, c, previous, end, 4) == m4;
    assert RestoreSteps(m, id, c, previous, end, 5) == m5;
    assert RestoreSteps(m, id, c, previous, end, 6) == Commit(m5, RestoreWrite(id, c, previous, end, 5));
  }

  /** The generation reached after `k` steps of a plan. */
  function Node(active: nat, steps: seq<Record>, k: nat): nat
    requires k <= |steps|
  {
    if k == 0 then active else steps[k - 1].baseGeneration
  }

  /** Step `k` of the plan takes the `k`-th generation of the path back to its parent, by the candidate that gave birth
      to it. */
  ghost predicate StepOk(s: State, active: nat, steps: seq<Record>, k: nat)
    requires k < |steps|
  {
    var n, r := Node(active, steps, k), steps[k];
    && n in s.generations && r.target == Some(n) && r.id.Built? && r.id.candidate < |s.candidates|
    && RecordOf(s, r.id.candidate) == r && r.state.Born?
    && s.generations[n].parent == Some(r.baseGeneration) && r.baseGeneration in s.generations && r.baseGeneration < n
  }

  lemma {:induction false} PathSteps(s: State, active: nat, steps: seq<Record>, target: nat, k: nat)
    requires LineageOk(s.generations) && Path(s.generations, Records(s), active, steps, target) && k <= |steps|
    ensures k < |steps| ==> StepOk(s, active, steps, k)
    ensures k == |steps| ==> Node(active, steps, k) == target
    ensures Node(active, steps, k) <= active
    decreases |steps|
  {
    if steps != [] {
      var parent := s.generations[active].parent.value;
      assert Link(s.generations, Records(s), s.generations[active]) == Some(steps[0]);
      assert steps[0].baseGeneration == parent;
      if k > 0 {
        PathSteps(s, parent, steps[1..], target, k - 1);
        assert Node(active, steps, k) == Node(parent, steps[1..], k - 1);
      }
    }
  }

  /** Later steps of a plan are older generations. */
  lemma {:induction false} NodesDescend(s: State, active: nat, steps: seq<Record>, j: nat, k: nat)
    requires j < k < |steps| && forall i :: 0 <= i < |steps| ==> StepOk(s, active, steps, i)
    ensures Node(active, steps, k) < Node(active, steps, j)
  {
    if j < k - 1 {
      NodesDescend(s, active, steps, j, k - 1);
    }
    assert StepOk(s, active, steps, k - 1);
  }

  /** Generation and candidate of step `j` are both marked as rolled back. */
  ghost predicate Passed(t: State, active: nat, steps: seq<Record>, j: nat)
    requires j < |steps|
  {
    && Node(active, steps, j) in t.generations && t.generations[Node(active, steps, j)].state.GenRolledBack?
    && steps[j].id.Built? && steps[j].id.candidate < |t.candidates|
        && t.candidates[steps[j].id.candidate].state.RolledBack?
  }

  /** Where a rollback over several generations stands after `k` of its steps. */
  ghost predicate RolledBackTo(s: State, t: State, active: nat, steps: seq<Record>, k: nat)
    requires k <= |steps|
  {
    && Inv(t) && Clean(t) && Consistent(t, Node(active, steps, k))
    && |t.candidates| == |s.candidates| && t.generations.Keys == s.generations.Keys && t.files == s.files
    && (forall g :: g in t.generations ==> t.generations[g] == s.generations[g].(state := t.generations[g].state))
    && (forall j :: 0 <= j < k ==> Passed(t, active, steps, j))
    && (forall i :: 0 <= i < |s.candidates| && (forall j :: 0 <= j < k ==> steps[j].id != Built(i)) ==>
        t.candidates[i] == s.candidates[i])
    && (forall g :: g in t.generations && g < Node(active, steps, k) ==>
        t.generations[g].state == s.generations[g].state)
  }

  lemma StepsDiffer(s: State, active: nat, steps: seq<Record>, j: nat, k: nat)
    requires j < k < |steps| && forall i :: 0 <= i < |steps| ==> StepOk(s, active, steps, i)
    ensures steps[j].id != steps[k].id && Node(active, steps, j) != Node(active, steps, k)
  {
    NodesDescend(s, active, steps, j, k);
    assert StepOk(s, active, steps, j) && StepOk(s, active, steps, k);
  }

  lemma NextRollback(s: State, t: Machine, active: nat, steps: seq<Record>, k: nat)
    requires t.halt.Alive? && k < |steps| && (forall i :: 0 <= i < |steps| ==> StepOk(s, active, steps, i))
        && RolledBackTo(s, t.s, active, steps, k)
    ensures
      steps[k].id.Built? && var id := steps[k].id.candidate; var n := Node(active, steps, k);
      && id < |t.s.candidates| && t.s.candidates[id] == s.candidates[id] && s.candidates[id].state.Born?
      && s.candidates[id].target == Some(n) && s.candidates[id].base == Node(active, steps, k + 1)
      && n in t.s.generations && s.candidates[id].base in t.s.generations && s.candidates[id].base < n
      && Restorable(t.s, id) && !BeforeSwitch(s.candidates[id])
      && RollbackCandidate(t, id) == Restore(t, id, GenRolledBack)
      && Restore(t, id, GenRolledBack)
          == RestoreSteps(t, id, s.candidates[id], t.s.generations[s.candidates[id].base].release, GenRolledBack,
          RESTORE_WRITES)
  {
    hide Inv, Clean, Restorable;
    assert StepOk(s, active, steps, k);
    var id := steps[k].id.candidate;
    forall j | 0 <= j < k ensures steps[j].id != steps[k].id {
      StepsDiffer(s, active, steps, j, k);
    }
    assert t.s.candidates[id] == s.candidates[id];
    ActiveBornIsRestorable(t.s, id);
  }

  lemma RollbackStep(s: State, t: Machine, active: nat, steps: seq<Record>, k: nat)
    requires t.halt.Alive? && k < |steps| && (forall i :: 0 <= i < |steps| ==> StepOk(s, active, steps, i))
        && RolledBackTo(s, t.s, active, steps, k)
    ensures
      steps[k].id.Built? && var u := RollbackCandidate(t, steps[k].id.candidate);
      Inv(u.s) && !u.halt.Threw? && (u.halt.Alive? <==> RESTORE_WRITES <= t.left)
      && (u.halt.Alive? ==> u.left == t.left - RESTORE_WRITES && RolledBackTo(s, u.s, active, steps, k + 1))
  {
    NextRollback(s, t, active, steps, k);
    var id := steps[k].id.candidate;
    var c := s.candidates[id];
    var previous := t.s.generations[c.base].release;
    RestoreStepsKeep(t, id, GenRolledBack, RESTORE_WRITES);
    RestoreKeeps(t, id, GenRolledBack);
    RestoreStepsUnfold(t, id, c, previous, GenRolledBack);
    var u := RollbackCandidate(t, id);
    if u.halt.Alive? {
      RolledBackFurther(s, t.s, u.s, active, steps, k);
    }
  }

  lemma RolledBackFurther(s: State, t: State, u: State, active: nat, steps: seq<Record>, k: nat)
    requires k < |steps| && (forall i :: 0 <= i < |steps| ==> StepOk(s, active, steps, i))
        && RolledBackTo(s, t, active, steps, k)
    requires steps[k].id.Built? && steps[k].id.candidate < |t.candidates|
        && t.candidates[steps[k].id.candidate] == s.candidates[steps[k].id.candidate]
    requires Inv(u) && Clean(u) && Consistent(u, Node(active, steps, k + 1))
    requires t.candidates[steps[k].id.candidate].target.Some?
        && OnlyRestores(t, u, steps[k].id.candidate, GenRolledBack)
    ensures RolledBackTo(s, u, active, steps, k + 1)
  {
    hide Inv, Clean;
    assert StepOk(s, active, steps, k);
    forall j | 0 <= j < k + 1 ensures Passed(u, active, steps, j) {
      if j < k {
        assert Passed(t, active, steps, j);
        StepsDiffer(s, active, steps, j, k);
        NodeAbove(s, active, steps, j, k + 1);
      }
    }
    forall i | 0 <= i < |s.candidates| && (forall j :: 0 <= j < k + 1 ==> steps[j].id != Built(i))
        ensures u.candidates[i] == s.candidates[i] {
      assert steps[k].id != Built(i);
    }
  }

  lemma NodeAbove(s: State, active: nat, steps: seq<Record>, j: nat, k: nat)
    requires j < k <= |steps| && forall i :: 0 <= i < |steps| ==> StepOk(s, active, steps, i)
    ensures Node(active, steps, k) < Node(active, steps, j)
  {
    assert StepOk(s, active, steps, k - 1);
    if j < k - 1 {
      NodesDescend(s, active, steps, j, k - 1);
    }
  }

  lemma {:induction false} RollbackAllKeeps(m: Machine, active: nat, steps: seq<Record>, k: nat)
    requires m.halt.Alive? && k <= |steps| && (forall i :: 0 <= i < |steps| ==> StepOk(m.s, active, steps, i))
        && RolledBackTo(m.s, m.s, active, steps, 0)
    ensures
      var t := RollbackAll(m, steps[..k]);
      Inv(t.s) && !t.halt.Threw? && (t.halt.Alive? <==> k * RESTORE_WRITES <= m.left)
      && (t.halt.Alive? ==> t.left == m.left - k * RESTORE_WRITES && RolledBackTo(m.s, t.s, active, steps, k))
  {
    hide Inv, RolledBackTo, StepOk, RollbackCandidate;
    InvOfRolledBack(m.s, m.s, active, steps, 0);
    if k > 0 {
      RollbackAllKeeps(m, active, steps, k - 1);
      assert steps[..k][..k - 1] == steps[..k - 1];
      var t := RollbackAll(m, steps[..k - 1]);
      if t.halt.Alive? {
        RollbackStep(m.s, t, active, steps, k - 1);
      } else {
        assert StepOk(m.s, active, steps, k - 1);
        DeadRollback(m.s, t, active, steps, k - 1);
      }
    }
  }

  lemma InvOfRolledBack(s: State, t: State, active: nat, steps: seq<Record>, k: nat)
    requires k <= |steps| && RolledBackTo(s, t, active, steps, k)
    ensures Inv(t)
  {
  }

  lemma DeadRollback(s: State, t: Machine, active: nat, steps: seq<Record>, k: nat)
    requires !t.halt.Alive? && k < |steps| && StepOk(s, active, steps, k)
    ensures steps[k].id.Built? && RollbackCandidate(t, steps[k].id.candidate) == t
  {
  }

  lemma LineageAscends(gens: Generations)
    requires LineageOk(gens)
    ensures KeyedById(gens) && Ascending(gens)
  {
  }

  /** What a rollback along a descent leaves: the target active in all three stores, and everything on the way to it
      marked as rolled back. */
  lemma DescentIsTakenBack(m: Machine, target: nat, expected: nat, nodes: seq<nat>, steps: seq<Record>)
    requires m.halt.Alive? && Inv(m.s) && Clean(m.s) && Consistent(m.s, expected)
    requires Reaches(m.s.generations, Records(m.s), expected, target, nodes, steps)
    ensures
      var t := RollbackTo(m, target, expected);
      && !t.halt.Threw? && Inv(t.s) && (t.halt.Alive? <==> |steps| * RESTORE_WRITES <= m.left)
      && (t.halt.Alive? ==> Consistent(t.s, target) && RolledBackTo(m.s, t.s, expected, steps, |steps|))
  {
    hide Reaches;
    var s := m.s;
    LineageAscends(s.generations);
    PlanIsTheDescent(s.generations, Records(s), expected, target);
    PlanIsExactlyThePath(s.generations, Records(s), expected, target, steps);
    forall i | 0 <= i < |steps| ensures StepOk(s, expected, steps, i) {
      PathSteps(s, expected, steps, target, i);
    }
    PathSteps(s, expected, steps, target, |steps|);
    RollbackAllKeeps(m, expected, steps, |steps|);
    assert steps[..|steps|] == steps;
  }

  /** A rollback: it goes through if and only if the published births lead from the active generation back to the
      target, which did not fail. Then, if the process lives for six writes a generation, the target ends active with
      all stores naming it and everything passed is rolled back; and if not, the invariant holds wherever it died, so
      that recovery converges. Otherwise nothing is written, and the error says whether the target makes no sense, is no
      ancestor, or lies behind a birth that is not on record. */
  lemma RollbackReachesItsTarget(m: Machine, target: nat, expected: nat)
    requires m.halt.Alive? && Inv(m.s) && Clean(m.s) && Consistent(m.s, expected)
    ensures
      var t, gens, rs := RollbackTo(m, target, expected), m.s.generations, Records(m.s);
      && Inv(t.s)
      && (t.halt.Threw? <==> !exists nodes, steps :: Reaches(gens, rs, expected, target, nodes, steps))
      && (t.halt.Threw? ==> t.s == m.s)
      && (t.halt == Threw("ROLLBACK_TARGET_INVALID") <==> Senseless(gens, expected, target))
      && (t.halt == Threw("ROLLBACK_TARGET_NOT_ANCESTOR") <==>
            !Senseless(gens, expected, target) && EndsAtRoot(gens, rs, expected, target))
      && (t.halt == Threw("ROLLBACK_HISTORY_UNAVAILABLE") <==>
            !Senseless(gens, expected, target) && BreaksOff(gens, rs, expected, target))
      && (forall nodes, steps :: Reaches(gens, rs, expected, target, nodes, steps) ==>
            && (t.halt.Alive? <==> |steps| * RESTORE_WRITES <= m.left)
            && (t.halt.Alive? ==> Consistent(t.s, target) && RolledBackTo(m.s, t.s, expected, steps, |steps|)))
  {
    hide Reaches, EndsAtRoot, BreaksOff, RolledBackTo, Plan;
    var s := m.s;
    LineageAscends(s.generations);
    PlanIsTheDescent(s.generations, Records(s), expected, target);
    forall nodes, steps | Reaches(s.generations, Records(s), expected, target, nodes, steps)
      ensures
        var t := RollbackTo(m, target, expected);
        && !t.halt.Threw? && Inv(t.s) && (t.halt.Alive? <==> |steps| * RESTORE_WRITES <= m.left)
        && (t.halt.Alive? ==> Consistent(t.s, target) && RolledBackTo(m.s, t.s, expected, steps, |steps|))
    {
      DescentIsTakenBack(m, target, expected, nodes, steps);
    }
    if Plan(s.generations, Records(s), expected, target).Ok? {
      var steps := Plan(s.generations, Records(s), expected, target).value;
      assert Plan(s.generations, Records(s), expected, target) == Ok(steps);
    }
  }

  // ---- Deletion and the ancestry ----

  /** The active generation and its ancestors keep their published links and their code. */
  ghost predicate KeepsAncestry(s: State, t: State, active: nat) {
    && t.generations == s.generations && KeyedById(s.generations)
    && (forall g :: g in s.generations && g <= active ==>
        Link(t.generations, Records(t), s.generations[g]) == Link(s.generations, Records(s), s.generations[g]))
    && (forall g :: g in s.generations && g <= active && s.generations[g].release in s.files ==>
        s.generations[g].release in t.files)
  }

  lemma {:induction false} PublicationUnchanged(xs: seq<Record>, ys: seq<Record>, g: Generation)
    requires |xs| == |ys|
    requires forall i :: 0 <= i < |xs| ==>
        ys[i] == xs[i] || (ys[i].id == xs[i].id && ys[i].target == xs[i].target && xs[i].target != Some(g.id))
    ensures Publication(xs, g) == Publication(ys, g)
  {
    if xs != [] {
      PublicationUnchanged(xs[1..], ys[1..], g);
    }
  }

  /** Only candidates newer than the active generation changed, and only their state and code. */
  lemma NewerChangesKeepAncestry(s: State, t: State, id: nat, active: nat)
    requires TablesOk(s) && OnlyDeletes(s, t) && id < |s.candidates| && VersionOf(s, s.candidates[id]) > active
        && active in s.generations
    requires forall i :: 0 <= i < |s.candidates| && i != id ==> t.candidates[i] == s.candidates[i]
    requires s.files - {Built(id)} <= t.files
    ensures KeepsAncestry(s, t, active)
  {
    forall g | g in s.generations && g <= active
      ensures Link(t.generations, Records(t), s.generations[g]) == Link(s.generations, Records(s), s.generations[g])
      ensures s.generations[g].release in s.files ==> s.generations[g].release in t.files
    {
      assert s.generations[g].number == g && s.generations[g].id == g;
      assert s.candidates[id].target != Some(g);
      PublicationUnchanged(Records(s), Records(t), s.generations[g]);
    }
  }

  /** In an ascending lineage every plan from the active generation is as it was. */
  lemma {:induction false} SameWalk(s: State, t: State, active: nat, current: nat, target: nat)
    requires LineageOk(s.generations) && KeepsAncestry(s, t, active) && current in s.generations && current <= active
    ensures Descend(t.generations, Records(t), current, target) == Descend(s.generations, Records(s), current, target)
    decreases current
  {
    if current != target && Link(s.generations, Records(s), s.generations[current]).Some? {
      SameWalk(s, t, active, s.generations[current].parent.value, target);
    }
  }

  lemma SamePlan(s: State, t: State, active: nat, target: nat)
    requires LineageOk(s.generations) && KeepsAncestry(s, t, active)
    ensures Plan(t.generations, Records(t), active, target) == Plan(s.generations, Records(s), active, target)
  {
    if Admissible(s.generations, active, target) {
      CycleCheckNeverFires(s.generations, Records(s), active, target, {});
      CycleCheckNeverFires(t.generations, Records(t), active, target, {});
      SameWalk(s, t, active, active, target);
    }
  }

  lemma KeepsAncestryTransitive(s: State, t: State, u: State, active: nat)
    requires KeepsAncestry(s, t, active) && KeepsAncestry(t, u, active)
    ensures KeepsAncestry(s, u, active)
  {
  }

  lemma DeleteTouchesOne(m: Machine, id: nat, expected: nat)
    requires m.halt.Alive? && Inv(m.s) && id < |m.s.candidates| && (Clean(m.s) || Doomed(m.s, id))
        && (m.s.candidates[id].state.Deleting? ==> Doomed(m.s, id))
    ensures
      var t := DeleteRelease(m, id, expected);
      KeepsAncestry(m.s, t.s, expected)
  {
    var s, t := m.s, DeleteRelease(m, id, expected);
    DeleteOutcome(m, id, expected);
    DeleteKeeps(m, id, expected);
    if MayDelete(s, id, expected) {
      assert s.generations[expected].number == expected;
      hide TablesOk;
      NewerChangesKeepAncestry(s, t.s, id, expected);
    } else {
      assert t.s == s;
    }
  }

  lemma DeleteSucceeds(m: Machine, s: State, expected: nat, i: nat)
    requires m.halt.Alive? && Inv(m.s) && Clean(m.s) && OnlyDeletes(s, m.s) && i < |s.candidates|
        && m.s.candidates[i] == s.candidates[i]
    requires Consistent(s, expected) && RestoredToActive(s) && Eligible(s, i, expected)
    ensures
      var t := DeleteRelease(m, i, expected);
      !t.halt.Threw? && (3 <= m.left ==> t.halt.Alive?)
      && (t.halt.Alive? ==> t.s.candidates[i] == s.candidates[i].(state := Deleted)) && OnlyDeletes(s, t.s)
      && (forall j :: 0 <= j < |s.candidates| && j != i ==> t.s.candidates[j] == m.s.candidates[j])
  {
    assert !m.s.candidates[i].state.Deleting? by { assert !Unfinished(m.s.candidates[i]); }
    assert MayDelete(m.s, i, expected);
    DeleteOutcome(m, i, expected);
  }

  /** Deleting the newer releases removes exactly the eligible ones, one after the other, and never throws. */
  lemma {:induction false} DeleteNewerKeeps(m: Machine, s: State, expected: nat, i: nat)
    requires Inv(m.s) && OnlyDeletes(s, m.s) && !m.halt.Threw? && (m.halt.Alive? ==> Clean(m.s))
    requires Consistent(s, expected) && RestoredToActive(s) && forall j :: i <= j < |s.candidates| ==>
        m.s.candidates[j] == s.candidates[j]
    ensures
      var t := DeleteNewer(m, s, expected, i);
      && Inv(t.s) && OnlyDeletes(s, t.s) && !t.halt.Threw? && KeepsAncestry(m.s, t.s, expected)
          && (t.halt.Alive? ==> Clean(t.s))
      && (t.halt.Alive? ==> forall j :: i <= j < |s.candidates| ==>
            t.s.candidates[j] == if Eligible(s, j, expected) then s.candidates[j].(state := Deleted)
                else s.candidates[j])
      && (t.halt.Alive? ==> m.halt.Alive? && forall j :: 0 <= j < |s.candidates| && j < i ==>
          t.s.candidates[j] == m.s.candidates[j])
    decreases |s.candidates| - i
  {
    hide TablesOk, StageOk, Clean, Eligible;
    SelfAncestry(m.s, expected);
    if i < |s.candidates| {
      var t := if Eligible(s, i, expected) then DeleteRelease(m, i, expected) else m;
      if m.halt.Alive? && Eligible(s, i, expected) {
        DeleteSucceeds(m, s, expected, i);
        CleanDeletes(m.s, i);
        DeleteKeeps(m, i, expected);
        DeleteTouchesOne(m, i, expected);
      }
      DeleteNewerKeeps(t, s, expected, i + 1);
      KeepsAncestryTransitive(m.s, t.s, DeleteNewer(t, s, expected, i + 1).s, expected);
    }
  }

  lemma SelfAncestry(s: State, active: nat)
    requires Inv(s)
    ensures KeepsAncestry(s, s, active)
  {
  }

  lemma CleanDeletes(s: State, i: nat)
    requires Clean(s) && i < |s.candidates|
    ensures !s.candidates[i].state.Deleting?
  {
    assert !Unfinished(s.candidates[i]);
  }

  /** Deleting newer releases removes neither the active release nor that of an ancestor, leaves every rollback plan as
      it was, and when the process lives through it, has deleted exactly the releases above the active generation that
      the rules allow. */
  lemma DeletionKeepsTheAncestry(m: Machine, expected: nat, target: nat)
    requires m.halt.Alive? && Inv(m.s) && Clean(m.s)
    ensures
      var t := DeleteNewerReleases(m, expected);
      && Inv(t.s) && KeyedById(m.s.generations) && KeyedById(t.s.generations)
      && Plan(t.s.generations, Records(t.s), expected, target) == Plan(m.s.generations, Records(m.s), expected, target)
      && (forall g :: g in m.s.generations && g <= expected && m.s.generations[g].release in m.s.files ==>
          m.s.generations[g].release in t.s.files)
      && (t.halt.Threw? <==> !Consistent(m.s, expected) || !RestoredToActive(m.s))
      && (t.halt.Alive? ==> |t.s.candidates| == |m.s.candidates| && forall i :: 0 <= i < |m.s.candidates| ==>
            t.s.candidates[i] == if Eligible(m.s, i, expected) then m.s.candidates[i].(state := Deleted)
                else m.s.candidates[i])
  {
    if Consistent(m.s, expected) && RestoredToActive(m.s) {
      DeleteNewerKeeps(m, m.s, expected, 0);
      SamePlan(m.s, DeleteNewerReleases(m, expected).s, expected, target);
    }
  }

  // ---- Every run ----

  lemma ReviewKeeps(s: State, id: nat, verdict: RecordState)
    requires Inv(s) && Clean(s)
    ensures Inv(Reviewed(s, id, verdict))
  {
    var t := Reviewed(s, id, verdict);
    if t != s {
      assert CandidateOk(s, id);
      NoBirthOf(s, id);
      TablesAfterRow(s, id, t.candidates[id]);
      assert Consistent(t, s.candidates[id].base);
      forall j | 0 <= j < |t.candidates| ensures !Unfinished(t.candidates[j]) {
      }
    }
  }

  lemma SubmitKeeps(s: State, base: nat, manifest: nat)
    requires Inv(s) && Clean(s)
    ensures Inv(Submitted(s, base, manifest))
  {
    var t := Submitted(s, base, manifest);
    if t != s {
      forall i | 0 <= i < |t.candidates| ensures CandidateOk(t, i) && !Unfinished(t.candidates[i]) {
        if i < |s.candidates| { assert CandidateOk(s, i) && !Unfinished(s.candidates[i]); }
      }
      assert Consistent(t, base);
    }
  }

  lemma RollbackKeeps(m: Machine, id: nat)
    requires m.halt.Alive? && Inv(m.s) && Clean(m.s)
    ensures Inv(Rollback(m, id).s)
  {
    if id < |m.s.candidates| && m.s.candidates[id].state.Born? && m.s.candidates[id].target.Some?
        && Active(m.s.generations, m.s.candidates[id].target.value) {
      ActiveBornIsRestorable(m.s, id);
      RestoreKeeps(m, id, GenRolledBack);
    }
  }

  lemma StepKeeps(s: State, c: Command)
    requires Inv(s) && (c.RecoverCommand? || !AnyUnfinished(s))
    ensures Inv(Step(s, c))
  {
    if !c.RecoverCommand? { InvFinishedIsClean(s); }
    hide Inv, AnyUnfinished, Clean, Consistent;
    match c
    case Submit(base, manifest) => SubmitKeeps(s, base, manifest);
    case Review(id, verdict) => ReviewKeeps(s, id, verdict);
    case BirthCommand(id, fail, left) => BirthKeeps(Machine(s, left, Alive), id, fail);
    case RecoverCommand(left) => RecoverConverges(Machine(s, left, Alive));
    case RollbackCommand(id, left) => RollbackKeeps(Machine(s, left, Alive), id);
    case RollbackToCommand(target, expected, left) =>
      if Consistent(s, expected) {
        RollbackReachesItsTarget(Machine(s, left, Alive), target, expected);
      } else {
        RefusedRollback(Machine(s, left, Alive), target, expected);
      }
    case DeleteCommand(id, expected, left) =>
      if id < |s.candidates| { CleanDeletes(s, id); DeleteKeeps(Machine(s, left, Alive), id, expected); }
    case DeleteNewerCommand(expected, left) => DeletionKeepsTheAncestry(Machine(s, left, Alive), expected, 0);
  }

  lemma RefusedRollback(m: Machine, target: nat, expected: nat)
    requires !Consistent(m.s, expected)
    ensures RollbackTo(m, target, expected).s == m.s
  {
  }

  /** The state the supervisor takes over: one installed generation, running. */
  ghost predicate Founded(s: State) {
    && s.generations.Keys == {1} && s.generations[1] == Generation(1, 1, None, Release.Installed(0), GenActive)
    && s.candidates == [] && s.pointer == 1 && s.release == Release.Installed(0)
  }

  /** In every run in which recovery precedes other commands, whatever fails and wherever the process dies, the
      invariant holds: every generation's number exceeds its parent's, and at most one is active. */
  lemma {:induction false} RunKeepsInv(s: State, cs: seq<Command>)
    requires Founded(s) && RecoversFirst(s, cs)
    ensures Inv(Run(s, cs))
  {
    if cs == [] {
      assert Consistent(s, 1);
    } else {
      RunKeepsInv(s, cs[..|cs| - 1]);
      StepKeeps(Run(s, cs[..|cs| - 1]), cs[|cs| - 1]);
    }
  }

  /** In every such run a recovery with six writes to live for completes without a conflict and leaves the three stores
      in agreement. */
  lemma RecoveryAlwaysConverges(s: State, cs: seq<Command>, left: nat)
    requires Founded(s) && RecoversFirst(s, cs) && RESTORE_WRITES <= left
    ensures
      var t := Recover(Machine(Run(s, cs), left, Alive));
      && t.halt.Alive? && !AnyUnfinished(t.s)
      && exists a :: a in t.s.generations && Consistent(t.s, a) && forall g :: g in t.s.generations ==>
          (t.s.generations[g].state.GenActive? <==> g == a)
  {
    RunKeepsInv(s, cs);
    RecoverConverges(Machine(Run(s, cs), left, Alive));
    CleanMeansAgreement(Recover(Machine(Run(s, cs), left, Alive)).s);
  }
}
