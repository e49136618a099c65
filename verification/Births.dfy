/** What a birth needs, what it leaves when it completes or fails, and what a recovery makes of one cut short
    (supervisor/generation_supervisor.ts), said of the rows and the three stores. */
module Births {
  import opened Wrappers
  import opened ReleaseHistory
  import opened Supervisor
  import opened SupervisorResults
  import opened SupervisorRuns

  // ---- Only what the owner approved is born ----

  /** No candidate gets a generation, and none is approved. */
  ghost predicate NothingBegins(s: State, t: State) {
    && |s.candidates| <= |t.candidates|
    && (forall i :: 0 <= i < |s.candidates| ==>
          && (s.candidates[i].target.None? ==> t.candidates[i].target.None?)
          && (!s.candidates[i].state.Approved? ==> !t.candidates[i].state.Approved?))
    && (forall i :: |s.candidates| <= i < |t.candidates| ==>
          t.candidates[i].target.None? && !t.candidates[i].state.Approved?)
  }

  /** A write that gives no candidate a generation, nor approval. */
  predicate Harmless(s: State, w: Write) {
    w.Row? && w.id < |s.candidates| ==>
      !w.row.state.Approved? && (s.candidates[w.id].target.None? ==> w.row.target.None?)
  }

  lemma CommitBeginsNothing(m: Machine, w: Write)
    requires Harmless(m.s, w)
    ensures NothingBegins(m.s, Commit(m, w).s)
  {
  }

  lemma NothingBeginsTwice(s: State, t: State, u: State)
    requires NothingBegins(s, t) && NothingBegins(t, u)
    ensures NothingBegins(s, u)
  {
  }

  lemma {:induction false} RestoreStepsBegin(m: Machine, id: nat, c: Candidate, previous: Release, end: GenerationState,
      k: nat)
    requires c.target.Some? && id < |m.s.candidates| && m.s.candidates[id].target.Some?
    ensures
      var t := RestoreSteps(m, id, c, previous, end, k);
      NothingBegins(m.s, t.s) && t.s.candidates[id].target.Some?
  {
    if k > 0 {
      RestoreStepsBegin(m, id, c, previous, end, k - 1);
      var t := RestoreSteps(m, id, c, previous, end, k - 1);
      CommitBeginsNothing(t, RestoreWrite(id, c, previous, end, k - 1));
      NothingBeginsTwice(m.s, t.s, RestoreSteps(m, id, c, previous, end, k).s);
    }
  }

  lemma AbandonStepsBegin(m: Machine, id: nat, c: Candidate)
    requires c.target.Some? && id < |m.s.candidates| && m.s.candidates[id].target.Some?
    ensures NothingBegins(m.s, AbandonSteps(m, id, c, ABANDON_WRITES).s)
  {
    var m1 := Commit(m, AbandonWrite(id, c, 0));
    CommitBeginsNothing(m, AbandonWrite(id, c, 0));
    CommitBeginsNothing(m1, AbandonWrite(id, c, 1));
    assert AbandonSteps(m, id, c, 1) == m1;
  }

  lemma RestoreBegins(m: Machine, id: nat, end: GenerationState)
    ensures NothingBegins(m.s, Restore(m, id, end).s)
  {
    hide RestoreSteps, AbandonSteps;
    if m.halt.Alive? && id < |m.s.candidates| && m.s.candidates[id].target.Some? {
      var c := m.s.candidates[id];
      AbandonStepsBegin(m, id, c);
      if c.base in m.s.generations {
        RestoreStepsBegin(m, id, c, m.s.generations[c.base].release, end, RESTORE_WRITES);
      }
    }
  }

  lemma DeleteBegins(m: Machine, id: nat, expected: nat)
    ensures NothingBegins(m.s, DeleteRelease(m, id, expected).s)
  {
    var s, t := m.s, DeleteRelease(m, id, expected);
    if t.s != s {
      var c := s.candidates[id];
      var intended := c.state.Deleting? && id in s.intents;
      var number := if intended then s.intents[id].number else VersionOf(s, c);
      var a := if intended then m else Commit(m, DeletionIntent(id, Intent(expected, number)));
      CommitBeginsNothing(m, DeletionIntent(id, Intent(expected, number)));
      var b := Commit(a, RemoveFiles(Built(id)));
      CommitBeginsNothing(a, RemoveFiles(Built(id)));
      CommitBeginsNothing(b, Row(id, c.(state := Deleted)));
      NothingBeginsTwice(s, b.s, t.s);
    }
  }

  lemma {:induction false} DeleteNewerBegins(m: Machine, s: State, expected: nat, i: nat)
    ensures NothingBegins(m.s, DeleteNewer(m, s, expected, i).s)
    decreases |s.candidates| - i
  {
    hide DeleteRelease, Eligible;
    if i < |s.candidates| {
      var t := if Eligible(s, i, expected) then DeleteRelease(m, i, expected) else m;
      DeleteBegins(m, i, expected);
      DeleteNewerBegins(t, s, expected, i + 1);
      NothingBeginsTwice(m.s, t.s, DeleteNewer(m, s, expected, i).s);
    }
  }

  lemma {:induction false} FinishDeletionsBegin(m: Machine, i: nat)
    ensures NothingBegins(m.s, FinishDeletions(m, i).s)
    decreases |m.s.candidates| - i
  {
    hide DeleteRelease;
    if i < |m.s.candidates| {
      var t := if m.halt.Alive? && m.s.candidates[i].state.Deleting? then
                 if i !in m.s.intents then Throw(m, "RELEASE_DELETE_INTENT_MISSING")
                     else DeleteRelease(m, i, m.s.intents[i].active)
               else m;
      if i in m.s.intents { DeleteBegins(m, i, m.s.intents[i].active); }
      FinishDeletionsBegin(t, i + 1);
      NothingBeginsTwice(m.s, t.s, FinishDeletions(m, i).s);
    }
  }

  lemma {:induction false} FinishTransitionsBegin(m: Machine, i: nat)
    ensures NothingBegins(m.s, FinishTransitions(m, i).s)
    decreases |m.s.candidates| - i
  {
    hide Restore;
    if i < |m.s.candidates| {
      var t := if m.halt.Alive? && InTransition(m.s.candidates[i]) then Restore(m, i, GenFailed) else m;
      RestoreBegins(m, i, GenFailed);
      FinishTransitionsBegin(t, i + 1);
      NothingBeginsTwice(m.s, t.s, FinishTransitions(m, i).s);
    }
  }

  lemma RecoverBegins(m: Machine)
    ensures NothingBegins(m.s, Recover(m).s)
  {
    FinishDeletionsBegin(m, 0);
    FinishTransitionsBegin(FinishDeletions(m, 0), 0);
    NothingBeginsTwice(m.s, FinishDeletions(m, 0).s, Recover(m).s);
  }

  lemma RollbackBegins(m: Machine, id: nat)
    ensures NothingBegins(m.s, RollbackCandidate(m, id).s) && NothingBegins(m.s, Rollback(m, id).s)
  {
    hide Restore;
    RestoreBegins(m, id, GenRolledBack);
  }

  lemma {:induction false} RollbackAllBegins(m: Machine, steps: seq<Record>)
    ensures NothingBegins(m.s, RollbackAll(m, steps).s)
  {
    hide RollbackCandidate;
    if steps != [] {
      var t := RollbackAll(m, steps[..|steps| - 1]);
      RollbackAllBegins(m, steps[..|steps| - 1]);
      if steps[|steps| - 1].id.Built? { RollbackBegins(t, steps[|steps| - 1].id.candidate); }
      NothingBeginsTwice(m.s, t.s, RollbackAll(m, steps).s);
    }
  }

  /** The first write of a birth is refused unless the candidate is approved; the others belong to a candidate that has
      its generation. */
  lemma {:induction false} BirthStepsBegin(m: Machine, id: nat, c: Candidate, k: nat, i: nat)
    requires id < |m.s.candidates| && i < |m.s.candidates|
    ensures
      var t := BirthSteps(m, id, c, k);
      && i < |t.s.candidates| && (!m.s.candidates[i].state.Approved? ==> !t.s.candidates[i].state.Approved?)
      && (i != id && m.s.candidates[i].target.None? ==> t.s.candidates[i].target.None?)
  {
    if k > 0 { BirthStepsBegin(m, id, c, k - 1, i); }
  }

  /** Each command: a candidate gets its generation only by its own birth, begun while it was approved, and is approved
      only by the owner. */
  lemma StepBegins(s: State, c: Command, i: nat)
    requires i < |Step(s, c).candidates|
    ensures
      var t := Step(s, c);
      && (t.candidates[i].target.Some? && !(i < |s.candidates| && s.candidates[i].target.Some?) ==>
            c.BirthCommand? && c.id == i && i < |s.candidates| && s.candidates[i].state.Approved?)
      && (t.candidates[i].state.Approved? && !(i < |s.candidates| && s.candidates[i].state.Approved?) ==>
            c == Review(i, Approved))
  {
    hide Birth, Recover, Rollback, RollbackTo, RollbackAll, DeleteRelease, DeleteNewer;
    match c
    case Submit(base, manifest) =>
    case Review(id, verdict) =>
    case BirthCommand(id, fail, left) => BirthBeginsOne(Machine(s, left, Alive), id, fail, i);
    case RecoverCommand(left) => RecoverBegins(Machine(s, left, Alive));
    case RollbackCommand(id, left) => RollbackBegins(Machine(s, left, Alive), id);
    case RollbackToCommand(target, expected, left) => RollbackToBegins(Machine(s, left, Alive), target, expected);
    case DeleteCommand(id, expected, left) => DeleteBegins(Machine(s, left, Alive), id, expected);
    case DeleteNewerCommand(expected, left) => DeleteNewerBegins(Machine(s, left, Alive), s, expected, 0);
  }

  lemma RollbackToBegins(m: Machine, target: nat, expected: nat)
    ensures NothingBegins(m.s, RollbackTo(m, target, expected).s)
  {
    hide RollbackAll, Plan;
    if KeyedById(m.s.generations) && Plan(m.s.generations, Records(m.s), expected, target).Ok? {
      RollbackAllBegins(m, Plan(m.s.generations, Records(m.s), expected, target).value);
    }
  }

  lemma BirthBeginsOne(m: Machine, id: nat, fail: Option<nat>, i: nat)
    requires i < |Birth(m, id, fail).s.candidates|
    ensures
      var t := Birth(m, id, fail).s;
      && |t.candidates| == |m.s.candidates|
      && (t.candidates[i].target.Some? && m.s.candidates[i].target.None? ==>
          i == id && m.s.candidates[i].state.Approved?)
      && (t.candidates[i].state.Approved? ==> m.s.candidates[i].state.Approved?)
  {
    hide BirthSteps, Restore;
    if id < |m.s.candidates| && BirthRefusal(m.s, id).None? && !m.s.candidates[id].state.Born? {
      var c := m.s.candidates[id];
      var k := if fail.None? || fail.value >= BIRTH_WRITES then BIRTH_WRITES else fail.value;
      BirthStepsBegin(m, id, c, k, i);
      RestoreBegins(BirthSteps(m, id, c, k), id, GenFailed);
    }
  }

  /** In every run, wherever processes die and whatever is recovered, rolled back or deleted: a candidate has a
      generation only if the owner approved it and its birth was ordered after that. */
  lemma {:induction false} OnlyApprovedAreBorn(s: State, cs: seq<Command>, i: nat)
    requires Founded(s) && i < |Run(s, cs).candidates| && Run(s, cs).candidates[i].target.Some?
    ensures exists k, n :: 0 <= k < n < |cs| && cs[k] == Review(i, Approved) && cs[n].BirthCommand? && cs[n].id == i
  {
    hide Step;
    if cs != [] {
      var before, n := cs[..|cs| - 1], |cs| - 1;
      StepBegins(Run(s, before), cs[n], i);
      if i < |Run(s, before).candidates| && Run(s, before).candidates[i].target.Some? {
        OnlyApprovedAreBorn(s, before, i);
        var k, n' :| 0 <= k < n' < |before| && before[k] == Review(i, Approved) && before[n'].BirthCommand?
            && before[n'].id == i;
        assert cs[k] == before[k] && cs[n'] == before[n'];
      } else {
        var k := WasApproved(s, before, i);
        assert cs[k] == Review(i, Approved);
      }
    }
  }

  lemma {:induction false} WasApproved(s: State, cs: seq<Command>, i: nat) returns (k: nat)
    requires Founded(s) && i < |Run(s, cs).candidates| && Run(s, cs).candidates[i].state.Approved?
    ensures k < |cs| && cs[k] == Review(i, Approved)
  {
    hide Step;
    var before, n := cs[..|cs| - 1], |cs| - 1;
    StepBegins(Run(s, before), cs[n], i);
    if i < |Run(s, before).candidates| && Run(s, before).candidates[i].state.Approved? {
      k := WasApproved(s, before, i);
    } else {
      k := n;
    }
  }

  // ---- What a birth needs ----

  /** The number of the next generation. */
  ghost predicate NextNumber(gens: Generations, n: nat) {
    if gens == map[] then n == 1
    else (forall g :: g in gens ==> gens[g].number < n) && exists g :: g in gens && gens[g].number + 1 == n
  }

  lemma SameNumber(gens: Generations, n: nat)
    ensures IsNext(gens, n) <==> NextNumber(gens, n)
  {
  }

  /** The candidate was made for the generation that now runs. */
  ghost predicate OnItsBase(s: State, c: Candidate) {
    && c.base in s.generations && s.generations[c.base].state.GenActive?
        && s.generations[c.base].release == c.baseRelease
  }

  /** Nobody else is being born or rolled back. */
  ghost predicate Alone(s: State) {
    forall i :: 0 <= i < |s.candidates| ==> !s.candidates[i].state.Birthing? && !s.candidates[i].state.RollingBack?
  }

  /** Why a birth is refused, in the order of the checks, and that it writes nothing then. */
  lemma BirthIsRefusedExactly(m: Machine, id: nat, fail: Option<nat>)
    requires m.halt.Alive? && !(id < |m.s.candidates| && m.s.candidates[id].state.Born?)
    ensures
      var s, t := m.s, Birth(m, id, fail);
      if id >= |s.candidates| then t == m.(halt := Threw("GENE_CANDIDATE_NOT_FOUND"))
      else
        var c := s.candidates[id];
        if !OnItsBase(s, c) then t == m.(halt := Threw("CANDIDATE_BASE_CONFLICT"))
        else if s.pointer != c.base || s.release != c.baseRelease then
          t == m.(halt := Threw("ACTIVE_TRUSTED_RELEASE_CONFLICT"))
        else if !c.state.Approved? then t == m.(halt := Threw("OWNER_EXACT_CANDIDATE_APPROVAL_REQUIRED"))
        else if !Alone(s) then t == m.(halt := Threw("EVOLUTION_RECOVERY_REQUIRED"))
        else if !NextNumber(s.generations, c.manifest) then t == m.(halt := Threw("GENOME_GENERATION_NUMBER_CONFLICT"))
        else BirthRefusal(s, id).None?
  {
    hide BirthSteps, Restore;
    var s := m.s;
    assert AnyInTransition(s) <==> !Alone(s);
    if id < |s.candidates| { SameNumber(s.generations, s.candidates[id].manifest); }
  }

  /** The candidate may be born now. */
  ghost predicate MayBeBorn(s: State, id: nat) {
    && id < |s.candidates| && s.candidates[id].state.Approved? && OnItsBase(s, s.candidates[id])
    && s.pointer == s.candidates[id].base && s.release == s.candidates[id].baseRelease
    && Alone(s) && NextNumber(s.generations, s.candidates[id].manifest)
  }

  lemma AdmittedMayBeBorn(s: State, id: nat)
    ensures BirthRefusal(s, id).None? <==> MayBeBorn(s, id)
  {
    assert AnyInTransition(s) <==> !Alone(s);
    if id < |s.candidates| { SameNumber(s.generations, s.candidates[id].manifest); }
  }

  // ---- What a birth leaves ----

  /** The new generation rules, its base has retired, and all three stores name it. */
  ghost predicate Rules(s: State, t: State, id: nat)
    requires id < |s.candidates|
  {
    var c := s.candidates[id];
    var n := c.manifest;
    && t.candidates == s.candidates[id := c.(state := Born, phase := Completed, target := Some(n))]
    && c.base in s.generations && t.generations.Keys == s.generations.Keys + {n} && n !in s.generations
    && t.generations[n] == Generation(n, n, Some(c.base), Built(id), GenActive)
    && t.generations[c.base] == s.generations[c.base].(state := GenRetired)
    && (forall g :: g in s.generations && g != c.base ==> t.generations[g] == s.generations[g])
    && t.pointer == n && t.release == Built(id)
    && t.restored == s.restored && t.intents == s.intents && t.files == s.files
  }

  /** One generation more; its base retires when it becomes active. */
  ghost predicate Grown(s: State, t: State, id: nat, state: GenerationState)
    requires id < |s.candidates|
  {
    var c := s.candidates[id];
    var n := c.manifest;
    && t.generations.Keys == s.generations.Keys + {n}
    && t.generations[n] == Generation(n, n, Some(c.base), Built(id), state)
    && forall g :: g in s.generations ==>
        t.generations[g] == s.generations[g].(state := if g == c.base && state.GenActive? then GenRetired
                                                       else s.generations[g].state)
  }

  /** Each write of a birth leaves the rest of the tables alone. */
  ghost predicate Growing(s: State, t: State, id: nat, k: nat)
    requires id < |s.candidates|
  {
    && |t.candidates| == |s.candidates|
    && (forall i :: 0 <= i < |s.candidates| && i != id ==> t.candidates[i] == s.candidates[i])
    && (if k <= 1 then t.generations == s.generations
        else Grown(s, t, id, if k <= 7 then GenBirthing else GenActive))
    && t.restored == s.restored && t.intents == s.intents && t.files == s.files
  }

  lemma NewNumber(s: State, id: nat)
    requires TablesOk(s) && MayBeBorn(s, id)
    ensures s.candidates[id].manifest !in s.generations
  {
  }

  lemma GrowsFurther(s: State, m: Machine, id: nat, k: nat)
    requires id < |s.candidates| && s.candidates[id].manifest !in s.generations
        && s.candidates[id].base in s.generations
    requires m.halt.Alive? && k < BIRTH_WRITES && Growing(s, m.s, id, k)
    ensures
      var t := Commit(m, BirthWrite(id, s.candidates[id], k));
      t.halt.Alive? ==> Growing(s, t.s, id, k + 1)
  {
  }

  lemma {:induction false} BirthGrows(m: Machine, id: nat, k: nat)
    requires m.halt.Alive? && id < |m.s.candidates| && k <= BIRTH_WRITES
    requires m.s.candidates[id].manifest !in m.s.generations && m.s.candidates[id].base in m.s.generations
    ensures
      var t := BirthSteps(m, id, m.s.candidates[id], k);
      t.halt.Alive? ==> Growing(m.s, t.s, id, k)
  {
    hide Growing, Commit, BirthWrite;
    if k == 0 {
      GrowsFromNothing(m.s, id);
    } else {
      var c := m.s.candidates[id];
      var t := BirthSteps(m, id, c, k - 1);
      BirthGrows(m, id, k - 1);
      if t.halt.Alive? { GrowsFurther(m.s, t, id, k - 1); } else { DeadCommit(t, BirthWrite(id, c, k - 1)); }
    }
  }

  lemma GrowsFromNothing(s: State, id: nat)
    requires id < |s.candidates|
    ensures Growing(s, s, id, 0)
  {
  }

  /** A birth in which nothing fails and whose process lives for its nine writes: the candidate's generation is the
      active one, its base has retired, the three stores name it, and nothing else has changed. */
  lemma BirthCompletes(m: Machine, id: nat)
    requires m.halt.Alive? && Inv(m.s) && Clean(m.s) && MayBeBorn(m.s, id) && BIRTH_WRITES <= m.left
    ensures
      var t := Birth(m, id, None);
      t.halt.Alive? && Rules(m.s, t.s, id) && Consistent(t.s, m.s.candidates[id].manifest)
  {
    hide Inv, TablesOk, StageOk, Clean, Growing, Alone, NextNumber;
    AdmittedMayBeBorn(m.s, id);
    TablesOfInv(m.s);
    NewNumber(m.s, id);
    BirthStepsKeep(m, id, BIRTH_WRITES);
    BirthGrows(m, id, BIRTH_WRITES);
    RulesNow(m.s, BirthSteps(m, id, m.s.candidates[id], BIRTH_WRITES).s, id);
  }

  lemma TablesOfInv(s: State)
    requires Inv(s)
    ensures TablesOk(s)
  {
    hide TablesOk, StageOk;
  }

  lemma RulesNow(s: State, t: State, id: nat)
    requires id < |s.candidates| && id < |t.candidates| && OnItsBase(s, s.candidates[id])
    requires s.candidates[id].manifest !in s.generations
    requires Growing(s, t, id, BIRTH_WRITES) && BirthStage(t, id, s.candidates[id], BIRTH_WRITES)
    ensures Rules(s, t, id) && Consistent(t, s.candidates[id].manifest)
  {
  }

  // ---- What a recovery makes of the rest ----

  /** A transition is taken back: the candidate failed, its generation with it if there was one, and the base is what
      all stores name again. */
  ghost predicate Reverted(s: State, t: State, i: nat)
    requires i < |s.candidates| && i < |t.candidates|
  {
    var c := s.candidates[i];
    && t.candidates[i] == c.(state := Failed, phase := Restored) && c.target.Some? && Consistent(t, c.base)
    && t.generations.Keys == s.generations.Keys && t.files == s.files
    && forall g :: g in s.generations ==>
        t.generations[g] == s.generations[g].(state := if g == c.target.value then GenFailed
                                                       else if g == c.base then GenActive
                                                       else s.generations[g].state)
  }

  /** A deletion is finished: the code is gone, and the lineage as it was. */
  ghost predicate Removed(s: State, t: State, i: nat)
    requires i < |s.candidates| && i < |t.candidates|
  {
    && t.candidates[i] == s.candidates[i].(state := Deleted) && t.files == s.files - {Built(i)}
    && t.generations == s.generations && t.pointer == s.pointer && t.release == s.release
  }

  /** What a recovery leaves of each candidate. */
  ghost predicate Settled(s: State, t: State) {
    && |t.candidates| == |s.candidates|
    && forall i :: 0 <= i < |s.candidates| ==>
        var state := s.candidates[i].state;
        if state.Birthing? || state.RollingBack? then Reverted(s, t, i)
        else if state.Deleting? then Removed(s, t, i)
        else t.candidates[i] == s.candidates[i]
  }

  lemma AbandonReverts(m: Machine, id: nat)
    requires m.halt.Alive? && Inv(m.s) && id < |m.s.candidates| && Pre(m.s, id) && RESTORE_WRITES <= m.left
    ensures
      var t := Restore(m, id, GenFailed);
      && |t.s.candidates| == |m.s.candidates| && Reverted(m.s, t.s, id)
      && forall j :: 0 <= j < |m.s.candidates| && j != id ==> t.s.candidates[j] == m.s.candidates[j]
  {
    hide StageOk, AbandonSteps, RestoreSteps;
    var s, c := m.s, m.s.candidates[id];
    assert CandidateOk(s, id);
    AbandonKeeps(m, id);
    AbandonUnfold(m, id, c);
  }

  lemma RestoreReverts(m: Machine, id: nat)
    requires m.halt.Alive? && Inv(m.s) && id < |m.s.candidates| && Restorable(m.s, id) && RESTORE_WRITES <= m.left
    ensures
      var t := Restore(m, id, GenFailed);
      && |t.s.candidates| == |m.s.candidates| && Reverted(m.s, t.s, id)
      && forall j :: 0 <= j < |m.s.candidates| && j != id ==> t.s.candidates[j] == m.s.candidates[j]
  {
    hide StageOk, AbandonSteps, RestoreSteps, Clean;
    var s, c := m.s, m.s.candidates[id];
    assert CandidateOk(s, id);
    RestoreStepsKeep(m, id, GenFailed, RESTORE_WRITES);
    RestoreStepsUnfold(m, id, c, s.generations[c.base].release, GenFailed);
    RestoreKeeps(m, id, GenFailed);
  }

  lemma DeleteRemoves(m: Machine, id: nat)
    requires m.halt.Alive? && Inv(m.s) && id < |m.s.candidates| && Doomed(m.s, id) && RESTORE_WRITES <= m.left
    ensures
      var t := DeleteRelease(m, id, m.s.intents[id].active);
      && |t.s.candidates| == |m.s.candidates| && Removed(m.s, t.s, id)
      && forall j :: 0 <= j < |m.s.candidates| && j != id ==> t.s.candidates[j] == m.s.candidates[j]
  {
    hide StageOk, TablesOk, DeleteRelease;
    TablesOfInv(m.s);
    DeleteOutcome(m, id, m.s.intents[id].active);
    DeleteKeeps(m, id, m.s.intents[id].active);
  }

  lemma OnlyOneUnfinished(s: State, u: nat)
    requires Inv(s) && u < |s.candidates| && Unfinished(s.candidates[u])
    ensures forall i :: 0 <= i < |s.candidates| && i != u ==> !Unfinished(s.candidates[i])
  {
    hide LineageOk, BirthsOk, CandidateOk, StageOk;
  }

  /** What a recovery with six writes makes of what it finds: the one candidate in transition is taken back, the one
      being deleted is deleted, and every other candidate is left alone. */
  lemma RecoverySettlesExactly(m: Machine)
    requires m.halt.Alive? && Inv(m.s) && RESTORE_WRITES <= m.left
    ensures Recover(m).halt.Alive? && Settled(m.s, Recover(m).s)
  {
    hide Reverted, Removed, TablesOk;
    RecoverConverges(m);
    if Clean(m.s) {
      RecoverIsIdle(m);
      CleanIsFinished(m.s);
    } else {
      var u :| 0 <= u < |m.s.candidates| && (Pre(m.s, u) || Mid(m.s, u) || Doomed(m.s, u));
      OnlyOneUnfinished(m.s, u);
      if Doomed(m.s, u) {
        DeleteRemoves(m, u);
        DeleteKeeps(m, u, m.s.intents[u].active);
        RecoverIsDelete(m, u);
      } else {
        if Pre(m.s, u) { AbandonReverts(m, u); } else { RestoreReverts(m, u); }
        RestoreKeeps(m, u, GenFailed);
        RecoverIsRestore(m, u);
      }
    }
  }

  lemma CleanIsFinished(s: State)
    requires Clean(s)
    ensures forall i :: 0 <= i < |s.candidates| ==> !Unfinished(s.candidates[i])
  {
  }

  // ---- Deletion ----

  /** A release above the active generation that is still there. */
  predicate Newer(s: State, i: nat, active: nat)
    requires i < |s.candidates| && active in s.generations
  {
    var c := s.candidates[i];
    var version := if c.target.Some? && c.target.value in s.generations then s.generations[c.target.value].number
        else c.manifest;
    version > s.generations[active].number && s.generations[active].release != Built(i) && !c.state.Deleted?
  }

  /** After a rollback, exactly the releases above the active generation are deleted, whether they were published,
      failed, or never got that far. */
  lemma NewerReleasesAreDeleted(m: Machine, expected: nat)
    requires m.halt.Alive? && Inv(m.s) && Clean(m.s) && Consistent(m.s, expected)
    requires m.s.restored == Some(expected)
    ensures
      var s, t := m.s, DeleteNewerReleases(m, expected);
      && !t.halt.Threw? && |t.s.candidates| == |s.candidates|
      && (t.halt.Alive? ==> forall i :: 0 <= i < |s.candidates| ==>
            t.s.candidates[i] == if Newer(s, i, expected) then s.candidates[i].(state := Deleted) else s.candidates[i])
  {
    hide Inv, TablesOk, StageOk, DeleteNewer, Plan;
    DeletionKeepsTheAncestry(m, expected, expected);
    CleanIsFinished(m.s);
    forall i | 0 <= i < |m.s.candidates| ensures Eligible(m.s, i, expected) <==> Newer(m.s, i, expected) {
      assert !Unfinished(m.s.candidates[i]);
    }
    LengthKept(m, expected);
  }

  lemma LengthKept(m: Machine, expected: nat)
    requires m.halt.Alive? && Inv(m.s) && Clean(m.s) && Consistent(m.s, expected) && RestoredToActive(m.s)
    ensures |DeleteNewerReleases(m, expected).s.candidates| == |m.s.candidates|
  {
    hide Inv, TablesOk, StageOk, DeleteNewer, Clean;
    DeleteNewerKeeps(m, m.s, expected, 0);
  }

  // ---- A birth that fails ----

  /** A birth in which something fails, at whatever write, and whose process lives to take it back: the candidate
      failed, its generation with it if it came that far, its base rules as before, and nothing else has changed. */
  lemma FailedBirthIsTakenBack(m: Machine, id: nat, fail: nat)
    requires m.halt.Alive? && Inv(m.s) && Clean(m.s) && MayBeBorn(m.s, id) && BIRTH_WRITES + RESTORE_WRITES <= m.left
    ensures
      var t, c := Birth(m, id, Some(fail)), m.s.candidates[id];
      && t.halt.Alive? && |t.s.candidates| == |m.s.candidates| && t.s.candidates[id].state.Failed?
      && Consistent(t.s, c.base) && t.s.files == m.s.files
      && (forall i :: 0 <= i < |m.s.candidates| && i != id ==> t.s.candidates[i] == m.s.candidates[i])
      && (forall g :: g in m.s.generations ==> g in t.s.generations && t.s.generations[g] == m.s.generations[g])
      && (forall g :: g in t.s.generations && g !in m.s.generations ==>
            g == c.manifest && t.s.generations[g].state.GenFailed?)
  {
    hide Inv, TablesOk, StageOk, Clean, Growing, Alone, NextNumber, Restore, BirthSteps, BirthProgress;
    AdmittedMayBeBorn(m.s, id);
    if fail > 0 {
      var k := if fail < BIRTH_WRITES then fail else BIRTH_WRITES;
      var t := BirthSteps(m, id, m.s.candidates[id], k);
      FailsAt(m, id, k);
      TakenBackFrom(m.s, t.s, Restore(t, id, GenFailed).s, id, k);
    }
  }

  lemma FailsAt(m: Machine, id: nat, k: nat)
    requires m.halt.Alive? && Inv(m.s) && Clean(m.s) && MayBeBorn(m.s, id) && BIRTH_WRITES + RESTORE_WRITES <= m.left
    requires 0 < k <= BIRTH_WRITES
    ensures
      var t := BirthSteps(m, id, m.s.candidates[id], k);
      && t.halt.Alive? && Growing(m.s, t.s, id, k) && id < |t.s.candidates|
          && BirthStage(t.s, id, m.s.candidates[id], k)
      && m.s.candidates[id].manifest !in m.s.generations
      && var u := Restore(t, id, GenFailed);
      && u.halt.Alive? && |u.s.candidates| == |t.s.candidates| && Reverted(t.s, u.s, id)
      && forall j :: 0 <= j < |t.s.candidates| && j != id ==> u.s.candidates[j] == t.s.candidates[j]
  {
    hide Growing, Alone, NextNumber, BirthStage, Reverted, TablesOk, StageOk, Restore, BirthSteps, Clean;
    AdmittedMayBeBorn(m.s, id);
    TablesOfInv(m.s);
    NewNumber(m.s, id);
    BirthStepsKeep(m, id, k);
    BirthGrows(m, id, k);
    var t := BirthSteps(m, id, m.s.candidates[id], k);
    TablesOfInv(t.s);
    BirthIsRestorable(t.s, id, m.s.candidates[id], k);
    RestoreKeeps(t, id, GenFailed);
    if Pre(t.s, id) { AbandonReverts(t, id); } else { RestoreReverts(t, id); }
  }

  lemma TakenBackFrom(s: State, t: State, u: State, id: nat, k: nat)
    requires id < |s.candidates| && 0 < k <= BIRTH_WRITES && OnItsBase(s, s.candidates[id])
    requires s.candidates[id].manifest !in s.generations
    requires Growing(s, t, id, k) && BirthStage(t, id, s.candidates[id], k)
    requires |u.candidates| == |t.candidates| && Reverted(t, u, id)
    requires forall j :: 0 <= j < |t.candidates| && j != id ==> u.candidates[j] == t.candidates[j]
    ensures u.candidates[id].state.Failed? && Consistent(u, s.candidates[id].base) && u.files == s.files
    ensures forall i :: 0 <= i < |s.candidates| && i != id ==> u.candidates[i] == s.candidates[i]
    ensures forall g :: g in s.generations ==> g in u.generations && u.generations[g] == s.generations[g]
    ensures forall g :: g in u.generations && g !in s.generations ==>
        g == s.candidates[id].manifest && u.generations[g].state.GenFailed?
  {
    hide Pre, Mid, Clean;
  }
}
