/** What the supervisor guarantees when its process may die between any two durable writes. */
module SupervisorResults {
  import opened Wrappers
  import opened ReleaseHistory
  import opened Supervisor

  // ---- The invariant ----

  /** Generations are numbered by their identifiers, above their parents; at most one is active. */
  ghost predicate LineageOk(gens: Generations) {
    && KeyedById(gens) && Ascending(gens)
    && (forall g :: g in gens ==> gens[g].number == g && (gens[g].parent.Some? ==> gens[g].parent.value in gens))
    && (forall g, h :: Active(gens, g) && Active(gens, h) ==> g == h)
  }

  /** A generation born here runs the release of the candidate that targets it; it is BIRTHING only while that candidate
      is unfinished. */
  ghost predicate BirthsOk(s: State) {
    forall g :: g in s.generations ==>
      && (s.generations[g].release.Built? ==>
           s.generations[g].release.candidate < |s.candidates|
               && s.candidates[s.generations[g].release.candidate].target == Some(g))
      && (s.generations[g].state.GenBirthing? ==>
           s.generations[g].release.Built? && InTransition(s.candidates[s.generations[g].release.candidate]))
  }

  ghost predicate CandidateOk(s: State, i: nat)
    requires i < |s.candidates|
  {
    var c := s.candidates[i];
    && c.base in s.generations && s.generations[c.base].release == c.baseRelease
    && (c.baseRelease.Built? ==> c.baseRelease.candidate < i)
    && (c.target.Some? ==> c.target.value > c.base && c.target.value == c.manifest)
    && ((InTransition(c) || c.state.Born? || c.state.RolledBack?) && c.target.Some?
        && c.target.value in s.generations ==>
          s.generations[c.target.value].parent == Some(c.base) && s.generations[c.target.value].release == Built(i))
    && (c.state.Submitted? || c.state.Validated? || c.state.Approved? ==> c.target.None?)
    && (InTransition(c) ==> c.target.Some?)
    && (c.state.Born? || c.state.RollingBack? || c.state.RolledBack? ==>
        c.target.Some? && c.target.value in s.generations)
    && (c.state.Born? ==> !BeforeSwitch(c))
  }

  /** Before the switch nothing that is running has been touched. */
  ghost predicate Pre(s: State, i: nat)
    requires i < |s.candidates|
  {
    var c := s.candidates[i];
    && c.state.Birthing? && BeforeSwitch(c) && c.target.Some? && Consistent(s, c.base)
    && (c.target.value !in s.generations ==> c.phase.Migrating? && forall g :: g in s.generations ==>
        g < c.target.value)
    && (c.target.value in s.generations ==>
        s.generations[c.target.value].state.GenBirthing? || s.generations[c.target.value].state.GenFailed?)
  }

  /** From the switch on, the release and the pointer may name either generation, and one of the two is active. */
  ghost predicate Mid(s: State, i: nat)
    requires i < |s.candidates|
  {
    var c := s.candidates[i];
    && InTransition(c) && !BeforeSwitch(c) && c.target.Some? && c.target.value in s.generations
        && c.base in s.generations
    && (Active(s.generations, c.base) || Active(s.generations, c.target.value))
    && (s.release == s.generations[c.base].release || s.release == Built(i))
    && (s.pointer == c.base || s.pointer == c.target.value)
  }

  ghost predicate Clean(s: State) {
    !AnyUnfinished(s) && exists g :: g in s.generations && Consistent(s, g)
  }

  ghost predicate Doomed(s: State, i: nat)
    requires i < |s.candidates|
  {
    && s.candidates[i].state.Deleting? && i in s.intents && Consistent(s, s.intents[i].active)
        && s.intents[i].number == VersionOf(s, s.candidates[i])
    && CanDeleteRelease(Failed, Built(i), s.intents[i].number, s.generations[s.intents[i].active], RestoredToActive(s))
  }

  ghost predicate OneUnfinished(s: State) {
    forall i, j :: 0 <= i < |s.candidates| && 0 <= j < |s.candidates| ==>
      Unfinished(s.candidates[i]) && Unfinished(s.candidates[j]) ==> i == j
  }

  ghost predicate TablesOk(s: State) {
    && LineageOk(s.generations) && BirthsOk(s) && (forall i :: 0 <= i < |s.candidates| ==> CandidateOk(s, i))
        && OneUnfinished(s)
  }

  ghost predicate StageOk(s: State) {
    Clean(s) || exists i :: 0 <= i < |s.candidates| && (Pre(s, i) || Mid(s, i) || Doomed(s, i))
  }

  ghost predicate Inv(s: State) {
    TablesOk(s) && StageOk(s)
  }

  // ---- Birth ----

  /** Where a birth stands after `k` writes. */
  ghost predicate BirthStage(s: State, id: nat, c: Candidate, k: nat)
    requires 0 < k <= BIRTH_WRITES && id < |s.candidates|
  {
    var n := c.manifest;
    var row := c.(state := Birthing, target := Some(n));
    if k <= 1 then s.candidates[id] == row.(phase := Migrating) && n !in s.generations && Pre(s, id)
    else if k <= 3 then
      s.candidates[id] == row.(phase := if k == 2 then Migrating else CandidateSmoke) && n in s.generations
          && s.generations[n].state.GenBirthing? && Pre(s, id)
    else if k <= 8 then
      && s.candidates[id] == row.(phase := if k <= 6 then Switching else Starting) && Mid(s, id)
      && (k >= 5 ==> s.release == Built(id)) && (k >= 6 ==> s.pointer == n)
      && (k == 8 ==> Active(s.generations, n)) && (k < 8 ==>
          Active(s.generations, c.base) && s.generations[n].state.GenBirthing?)
    else s.candidates[id] == row.(state := Born, phase := Completed) && Clean(s) && Consistent(s, n)
  }

  /** One candidate's row changes. */
  lemma TablesAfterRow(s: State, id: nat, row: Candidate)
    requires TablesOk(s) && id < |s.candidates|
    requires row.target == s.candidates[id].target || s.candidates[id].target.None?
    requires CandidateOk(s.(candidates := s.candidates[id := row]), id)
    requires Unfinished(row) ==> forall j :: 0 <= j < |s.candidates| && j != id ==> !Unfinished(s.candidates[j])
    requires !InTransition(row) ==> forall g :: g in s.generations && s.generations[g].release == Built(id) ==>
        !s.generations[g].state.GenBirthing?
    ensures TablesOk(s.(candidates := s.candidates[id := row]))
  {
    var t := s.(candidates := s.candidates[id := row]);
    forall i | 0 <= i < |t.candidates| ensures CandidateOk(t, i) {
      if i != id { assert CandidateOk(s, i); }
    }
    forall g | g in s.generations && s.generations[g].release == Built(id) ensures s.candidates[id].target == Some(g) {
    }
  }

  /** Generations change their states only; none starts being born. */
  lemma TablesAfterStates(s: State, gens: Generations)
    requires TablesOk(s) && gens.Keys == s.generations.Keys
    requires forall g :: g in gens ==>
        gens[g] == s.generations[g].(state := gens[g].state)
        && (gens[g].state.GenBirthing? ==> s.generations[g].state.GenBirthing?)
    requires forall g, h :: Active(gens, g) && Active(gens, h) ==> g == h
    ensures TablesOk(s.(generations := gens))
  {
    var t := s.(generations := gens);
    forall i | 0 <= i < |t.candidates| ensures CandidateOk(t, i) {
      assert CandidateOk(s, i);
    }
  }

  /** A succession between two generations one of which was active leaves exactly the other active, and changes only
      their states. */
  lemma SuccessionShape(gens: Generations, ended: nat, end: GenerationState, begun: nat)
    requires ended in gens && begun in gens && ended != begun && !end.GenActive? && !end.GenBirthing?
    requires (Active(gens, ended) || Active(gens, begun)) && forall g, h :: Active(gens, g) && Active(gens, h) ==>
        g == h
    ensures
      var after := SetState(SetState(gens, ended, end), begun, GenActive);
      && after.Keys == gens.Keys && (forall g :: Active(after, g) <==> g == begun)
      && (forall g :: g in after ==>
          after[g] == gens[g].(state := after[g].state) && (after[g].state.GenBirthing? ==> gens[g].state.GenBirthing?))
  {
    var after := SetState(SetState(gens, ended, end), begun, GenActive);
    forall g | Active(after, g) ensures g == begun {
      assert g != begun ==> g != ended && Active(gens, g);
    }
  }

  lemma UniqueActive(s: State)
    requires TablesOk(s)
    ensures forall g, h :: Active(s.generations, g) && Active(s.generations, h) ==> g == h
  {
  }

  lemma SuccessionKeepsTables(s: State, ended: nat, end: GenerationState, begun: nat)
    requires TablesOk(s) && ended in s.generations && begun in s.generations && ended != begun && !end.GenActive?
        && !end.GenBirthing?
    requires Active(s.generations, ended) || Active(s.generations, begun)
    ensures
      var r := Do(s, Succession(ended, end, begun));
      r.Ok? && r.value == s.(generations := SetState(SetState(s.generations, ended, end), begun, GenActive))
          && TablesOk(r.value)
  {
    UniqueActive(s);
    hide TablesOk, SetState;
    SuccessionShape(s.generations, ended, end, begun);
    TablesAfterStates(s, SetState(SetState(s.generations, ended, end), begun, GenActive));
  }

  lemma TablesAfterBirth(s: State, id: nat, n: nat)
    requires TablesOk(s) && id < |s.candidates| && InTransition(s.candidates[id]) && s.candidates[id].target == Some(n)
    requires n !in s.generations && forall g :: g in s.generations ==> g < n
    ensures TablesOk(s.(generations :=
        s.generations[n := Generation(n, n, Some(s.candidates[id].base), Built(id), GenBirthing)]))
  {
    var t := s.(generations := s.generations[n := Generation(n, n, Some(s.candidates[id].base), Built(id),
        GenBirthing)]);
    assert CandidateOk(s, id);
    forall g | Active(t.generations, g) ensures Active(s.generations, g) {
    }
    assert LineageOk(t.generations) && BirthsOk(t) && OneUnfinished(t);
    forall i | 0 <= i < |t.candidates| ensures CandidateOk(t, i) {
      assert CandidateOk(s, i);
      if i != id && s.candidates[i].target == Some(n) {
        assert !s.candidates[i].state.Born? && !s.candidates[i].state.RolledBack?;
      }
    }
  }

  lemma BirthFirstWrite(s: State, id: nat)
    requires TablesOk(s) && BirthRefusal(s, id).None? && Clean(s)
    ensures
      var r := Do(s, BirthWrite(id, s.candidates[id], 0));
      r.Ok? && TablesOk(r.value) && id < |r.value.candidates| && BirthStage(r.value, id, s.candidates[id], 1)
  {
    var c := s.candidates[id];
    assert CandidateOk(s, id);
    forall g | g in s.generations ensures s.generations[g].release != Built(id) && g < c.manifest {
    }
    TablesAfterRow(s, id, c.(state := Birthing, target := Some(c.manifest), phase := Migrating));
  }

  lemma BirthRowWrite(s: State, id: nat, c: Candidate, k: nat)
    requires TablesOk(s) && id < |s.candidates| && (k == 2 || k == 3 || k == 6 || k == 8) && BirthStage(s, id, c, k)
    ensures
      var r := Do(s, BirthWrite(id, c, k));
      r.Ok? && TablesOk(r.value) && id < |r.value.candidates| && BirthStage(r.value, id, c, k + 1)
  {
    assert CandidateOk(s, id);
    var t := Do(s, BirthWrite(id, c, k)).value;
    if k == 8 {
      assert Consistent(s, c.manifest);
      forall j | 0 <= j < |t.candidates| ensures !Unfinished(t.candidates[j]) {
      }
      forall g | g in s.generations && s.generations[g].release == Built(id) ensures g == c.manifest {
      }
    }
    TablesAfterRow(s, id, t.candidates[id]);
  }

  lemma BirthStoreWrite(s: State, id: nat, c: Candidate, k: nat)
    requires TablesOk(s) && id < |s.candidates| && (k == 1 || k == 4 || k == 5 || k == 7) && BirthStage(s, id, c, k)
    ensures
      var r := Do(s, BirthWrite(id, c, k));
      r.Ok? && TablesOk(r.value) && id < |r.value.candidates| && BirthStage(r.value, id, c, k + 1)
  {
    assert CandidateOk(s, id);
    var n := c.manifest;
    if k == 1 {
      TablesAfterBirth(s, id, n);
    } else if k == 7 {
      SuccessionKeepsTables(s, c.base, GenRetired, n);
    } else {
      var t := Do(s, BirthWrite(id, c, k)).value;
      forall i | 0 <= i < |t.candidates| ensures CandidateOk(t, i) {
        assert CandidateOk(s, i);
      }
    }
  }

  lemma BirthNextWrite(s: State, id: nat, c: Candidate, k: nat)
    requires TablesOk(s) && id < |s.candidates| && 0 < k < BIRTH_WRITES && BirthStage(s, id, c, k)
    ensures
      var r := Do(s, BirthWrite(id, c, k));
      r.Ok? && TablesOk(r.value) && id < |r.value.candidates| && BirthStage(r.value, id, c, k + 1)
  {
    if k == 2 || k == 3 || k == 6 || k == 8 {
      BirthRowWrite(s, id, c, k);
    } else {
      BirthStoreWrite(s, id, c, k);
    }
  }

  lemma StageGivesInv(s: State, id: nat, c: Candidate, k: nat)
    requires TablesOk(s) && 0 < k <= BIRTH_WRITES && id < |s.candidates| && BirthStage(s, id, c, k)
    ensures Inv(s)
  {
  }

  ghost predicate BirthAt(m: Machine, id: nat, c: Candidate, k: nat) {
    && m.halt.Alive? && Inv(m.s) && id < |m.s.candidates| && k <= BIRTH_WRITES
    && if k == 0 then m.s.candidates[id] == c && BirthRefusal(m.s, id).None? && Clean(m.s)
        else BirthStage(m.s, id, c, k)
  }

  lemma BirthCommit(m: Machine, id: nat, c: Candidate, k: nat)
    requires BirthAt(m, id, c, k) && k < BIRTH_WRITES
    ensures
      var t := Commit(m, BirthWrite(id, c, k));
      if m.left == 0 then t == m.(halt := Died) else BirthAt(t, id, c, k + 1) && t.left == m.left - 1
  {
    hide TablesOk, BirthStage, BirthRefusal, Do;
    if k == 0 {
      BirthFirstWrite(m.s, id);
    } else {
      BirthNextWrite(m.s, id, c, k);
    }
    if m.left > 0 {
      StageGivesInv(Commit(m, BirthWrite(id, c, k)).s, id, c, k + 1);
    }
  }

  /** After `k` writes of a birth that began in `m`, or as many as the process lived for. */
  ghost predicate BirthProgress(m: Machine, t: Machine, id: nat, c: Candidate, k: nat) {
    && Inv(t.s) && !t.halt.Threw? && (t.halt.Alive? <==> k <= m.left)
    && (t.halt.Alive? ==> t.left == m.left - k && BirthAt(t, id, c, k))
  }

  lemma BirthExtends(m: Machine, t: Machine, id: nat, c: Candidate, k: nat)
    requires BirthProgress(m, t, id, c, k) && k < BIRTH_WRITES
    ensures BirthProgress(m, Commit(t, BirthWrite(id, c, k)), id, c, k + 1)
  {
    hide Inv, BirthStage, Clean, Commit, BirthWrite, BirthRefusal;
    if t.halt.Alive? {
      BirthCommit(t, id, c, k);
      InvWhenBirthAt(Commit(t, BirthWrite(id, c, k)), id, c, k + 1);
    } else {
      DeadCommit(t, BirthWrite(id, c, k));
    }
  }

  lemma InvWhenBirthAt(m: Machine, id: nat, c: Candidate, k: nat)
    ensures BirthAt(m, id, c, k) ==> Inv(m.s) && m.halt.Alive?
  {
  }

  /** A birth never breaks a table constraint, and keeps the invariant wherever the process dies. */
  lemma {:induction false} BirthStepsKeep(m: Machine, id: nat, k: nat)
    requires m.halt.Alive? && Inv(m.s) && BirthRefusal(m.s, id).None? && Clean(m.s) && k <= BIRTH_WRITES
    ensures BirthProgress(m, BirthSteps(m, id, m.s.candidates[id], k), id, m.s.candidates[id], k)
  {
    hide BirthProgress, Commit, BirthWrite, BirthRefusal, Inv, Clean;
    BirthBegins(m, id);
    if k > 0 {
      BirthStepsKeep(m, id, k - 1);
      BirthExtends(m, BirthSteps(m, id, m.s.candidates[id], k - 1), id, m.s.candidates[id], k - 1);
    }
  }

  lemma BirthBegins(m: Machine, id: nat)
    requires m.halt.Alive? && Inv(m.s) && BirthRefusal(m.s, id).None? && Clean(m.s)
    ensures id < |m.s.candidates| && BirthProgress(m, m, id, m.s.candidates[id], 0)
  {
    hide Inv, Clean;
  }

  lemma DeadCommit(m: Machine, w: Write)
    requires !m.halt.Alive?
    ensures Commit(m, w) == m
  {
  }

  // ---- Restoration ----

  ghost predicate Restorable(s: State, id: nat)
    requires id < |s.candidates|
  {
    var c := s.candidates[id];
    Mid(s, id) || (Clean(s) && c.state.Born? && c.target.Some? && Active(s.generations, c.target.value)
        && s.pointer == c.target.value && s.release == Built(id))
  }

  ghost predicate Outcome(end: GenerationState) {
    end.GenFailed? || end.GenRolledBack?
  }

  /** Where a restoration stands after `k` writes. */
  ghost predicate RestoreStage(s: State, id: nat, c: Candidate, previous: Release, end: GenerationState, k: nat)
    requires 0 < k <= RESTORE_WRITES && id < |s.candidates| && c.target.Some?
  {
    && c.target.value in s.generations && c.base in s.generations && s.generations[c.base].release == previous
    && (k <= 4 ==> s.candidates[id] == c.(state := RollingBack, phase := Stopping) && Mid(s, id))
    && (k >= 2 ==> s.release == previous) && (k >= 3 ==> s.pointer == c.base)
    && (k >= 4 ==> Active(s.generations, c.base) && s.generations[c.target.value].state == end)
    && (k >= 5 ==> s.candidates[id] == c.(state := Ending(end), phase := Restored) && Clean(s))
    && (k >= 6 ==> s.restored == Some(c.base))
  }

  lemma RestoreFirstWrite(s: State, id: nat, end: GenerationState)
    requires TablesOk(s) && id < |s.candidates| && Restorable(s, id)
    ensures
      var c := s.candidates[id];
      var r := Do(s, Row(id, c.(state := RollingBack, phase := Stopping)));
      c.target.Some? && r.Ok? && TablesOk(r.value) && id < |r.value.candidates| && c.base in s.generations
      && RestoreStage(r.value, id, c, s.generations[c.base].release, end, 1)
  {
    assert CandidateOk(s, id);
    var c := s.candidates[id];
    TablesAfterRow(s, id, c.(state := RollingBack, phase := Stopping));
  }

  lemma RestoreStoreWrite(s: State, id: nat, c: Candidate, previous: Release, end: GenerationState, k: nat)
    requires TablesOk(s) && id < |s.candidates| && c.target.Some? && (k == 1 || k == 2 || k == 5)
        && RestoreStage(s, id, c, previous, end, k)
    ensures
      var r := Do(s, RestoreWrite(id, c, previous, end, k));
      r.Ok? && TablesOk(r.value) && id < |r.value.candidates| && RestoreStage(r.value, id, c, previous, end, k + 1)
  {
    var t := Do(s, RestoreWrite(id, c, previous, end, k)).value;
    forall i | 0 <= i < |t.candidates| ensures CandidateOk(t, i) {
      assert CandidateOk(s, i);
    }
    if k == 5 {
      var g :| g in s.generations && Consistent(s, g);
      assert Consistent(t, g);
    }
  }

  lemma RestoreLineageWrite(s: State, id: nat, c: Candidate, previous: Release, end: GenerationState)
    requires TablesOk(s) && id < |s.candidates| && c.target.Some? && Outcome(end)
        && RestoreStage(s, id, c, previous, end, 3)
    ensures
      var r := Do(s, RestoreWrite(id, c, previous, end, 3));
      r.Ok? && TablesOk(r.value) && id < |r.value.candidates| && RestoreStage(r.value, id, c, previous, end, 4)
  {
    assert CandidateOk(s, id) && c.target.value != c.base;
    SuccessionKeepsTables(s, c.target.value, end, c.base);
    hide TablesOk, Do;
  }

  lemma RestoreRowWrite(s: State, id: nat, c: Candidate, previous: Release, end: GenerationState)
    requires TablesOk(s) && id < |s.candidates| && c.target.Some? && Outcome(end)
        && RestoreStage(s, id, c, previous, end, 4)
    ensures
      var r := Do(s, RestoreWrite(id, c, previous, end, 4));
      r.Ok? && TablesOk(r.value) && id < |r.value.candidates| && RestoreStage(r.value, id, c, previous, end, 5)
  {
    var row := c.(state := Ending(end), phase := Restored);
    var t := s.(candidates := s.candidates[id := row]);
    assert CandidateOk(s, id);
    forall g | g in s.generations && s.generations[g].release == Built(id) ensures g == c.target.value {
    }
    TablesAfterRow(s, id, row);
    assert Consistent(t, c.base);
    forall j | 0 <= j < |t.candidates| ensures !Unfinished(t.candidates[j]) {
    }
  }

  lemma RestoreNextWrite(s: State, id: nat, c: Candidate, previous: Release, end: GenerationState, k: nat)
    requires TablesOk(s) && id < |s.candidates| && c.target.Some? && Outcome(end) && 0 < k < RESTORE_WRITES
        && RestoreStage(s, id, c, previous, end, k)
    ensures
      var r := Do(s, RestoreWrite(id, c, previous, end, k));
      r.Ok? && TablesOk(r.value) && id < |r.value.candidates| && RestoreStage(r.value, id, c, previous, end, k + 1)
  {
    if k == 3 {
      RestoreLineageWrite(s, id, c, previous, end);
    } else if k == 4 {
      RestoreRowWrite(s, id, c, previous, end);
    } else {
      RestoreStoreWrite(s, id, c, previous, end, k);
    }
  }

  ghost predicate RestoreAt(m: Machine, id: nat, c: Candidate, previous: Release, end: GenerationState, k: nat) {
    && m.halt.Alive? && Inv(m.s) && id < |m.s.candidates| && c.target.Some? && Outcome(end) && k <= RESTORE_WRITES
    && if k == 0 then
         m.s.candidates[id] == c && Restorable(m.s, id) && c.base in m.s.generations
             && m.s.generations[c.base].release == previous
       else RestoreStage(m.s, id, c, previous, end, k)
  }

  lemma RestoreCommit(m: Machine, id: nat, c: Candidate, previous: Release, end: GenerationState, k: nat)
    requires RestoreAt(m, id, c, previous, end, k) && k < RESTORE_WRITES
    ensures
      var t := Commit(m, RestoreWrite(id, c, previous, end, k));
      if m.left == 0 then t == m.(halt := Died) else RestoreAt(t, id, c, previous, end, k + 1) && t.left == m.left - 1
  {
    hide TablesOk, Do, Restorable;
    if k == 0 {
      RestoreFirstWrite(m.s, id, end);
    } else {
      RestoreNextWrite(m.s, id, c, previous, end, k);
    }
    assert m.left > 0 ==> Inv(Commit(m, RestoreWrite(id, c, previous, end, k)).s);
  }

  /** After `k` writes of a restoration that began in `m`, or as many as the process lived for. */
  ghost predicate RestoreProgress(m: Machine, t: Machine, id: nat, c: Candidate, previous: Release,
      end: GenerationState, k: nat) {
    && Inv(t.s) && !t.halt.Threw? && (t.halt.Alive? <==> k <= m.left)
    && (t.halt.Alive? ==> t.left == m.left - k && RestoreAt(t, id, c, previous, end, k))
  }

  lemma RestoreExtends(m: Machine, t: Machine, id: nat, c: Candidate, previous: Release, end: GenerationState, k: nat)
    requires c.target.Some? && k < RESTORE_WRITES && RestoreProgress(m, t, id, c, previous, end, k)
    ensures RestoreProgress(m, Commit(t, RestoreWrite(id, c, previous, end, k)), id, c, previous, end, k + 1)
  {
    hide Inv, RestoreStage, Restorable, Commit, RestoreWrite;
    if t.halt.Alive? {
      RestoreCommit(t, id, c, previous, end, k);
      InvWhenRestoreAt(Commit(t, RestoreWrite(id, c, previous, end, k)), id, c, previous, end, k + 1);
    } else {
      DeadCommit(t, RestoreWrite(id, c, previous, end, k));
    }
  }

  lemma InvWhenRestoreAt(m: Machine, id: nat, c: Candidate, previous: Release, end: GenerationState, k: nat)
    ensures RestoreAt(m, id, c, previous, end, k) ==> Inv(m.s) && m.halt.Alive?
  {
  }

  lemma RestoreBegins(m: Machine, id: nat, end: GenerationState)
    requires m.halt.Alive? && Inv(m.s) && id < |m.s.candidates| && Restorable(m.s, id) && Outcome(end)
    ensures
      var c := m.s.candidates[id];
      c.target.Some? && c.base in m.s.generations
          && RestoreProgress(m, m, id, c, m.s.generations[c.base].release, end, 0)
  {
    assert CandidateOk(m.s, id);
    hide TablesOk, StageOk;
  }

  lemma {:induction false} RestoreStepsKeep(m: Machine, id: nat, end: GenerationState, k: nat)
    requires m.halt.Alive? && Inv(m.s) && id < |m.s.candidates| && Restorable(m.s, id) && Outcome(end)
        && k <= RESTORE_WRITES
    ensures
      var c := m.s.candidates[id];
      c.target.Some? && c.base in m.s.generations &&
      RestoreProgress(m, RestoreSteps(m, id, c, m.s.generations[c.base].release, end, k), id, c,
          m.s.generations[c.base].release, end, k)
  {
    hide Inv, RestoreProgress, Restorable, Commit, RestoreWrite;
    RestoreBegins(m, id, end);
    if k > 0 {
      var c := m.s.candidates[id];
      RestoreStepsKeep(m, id, end, k - 1);
      RestoreExtends(m, RestoreSteps(m, id, c, m.s.generations[c.base].release, end, k - 1), id, c,
          m.s.generations[c.base].release, end, k - 1);
    }
  }

  lemma AbandonFirst(s: State, id: nat)
    requires TablesOk(s) && id < |s.candidates| && Pre(s, id)
    ensures
      var u := s.(generations := SetState(s.generations, s.candidates[id].target.value, GenFailed));
      TablesOk(u) && Pre(u, id) && (forall g :: g in u.generations && u.generations[g].release == Built(id) ==>
          !u.generations[g].state.GenBirthing?)
  {
    var n := s.candidates[id].target.value;
    var u := s.(generations := SetState(s.generations, n, GenFailed));
    assert CandidateOk(s, id);
    forall g | Active(u.generations, g) ensures Active(s.generations, g) {
    }
    TablesAfterStates(s, u.generations);
    assert Consistent(u, s.candidates[id].base);
    forall g | g in u.generations && u.generations[g].release == Built(id) ensures g == n {
    }
  }

  lemma AbandonSecond(u: State, id: nat)
    requires TablesOk(u) && id < |u.candidates| && Pre(u, id)
    requires forall g :: g in u.generations && u.generations[g].release == Built(id) ==>
        !u.generations[g].state.GenBirthing?
    ensures
      var c := u.candidates[id];
      var t := u.(candidates := u.candidates[id := c.(state := Failed, phase := Restored)]);
      TablesOk(t) && Clean(t) && Consistent(t, c.base)
  {
    var c := u.candidates[id];
    var t := u.(candidates := u.candidates[id := c.(state := Failed, phase := Restored)]);
    assert CandidateOk(u, id);
    TablesAfterRow(u, id, t.candidates[id]);
    assert Consistent(t, c.base);
    forall j | 0 <= j < |t.candidates| ensures !Unfinished(t.candidates[j]) {
    }
  }

  lemma AbandonUnfold(m: Machine, id: nat, c: Candidate)
    requires m.halt.Alive? && id < |m.s.candidates| && c.target.Some?
    ensures
      var u := m.s.(generations := SetState(m.s.generations, c.target.value, GenFailed));
      AbandonSteps(m, id, c, ABANDON_WRITES) ==
        if m.left == 0 then m.(halt := Died)
        else if m.left == 1 then Machine(u, 0, Died)
        else Machine(u.(candidates := u.candidates[id := c.(state := Failed, phase := Restored)]), m.left - 2, Alive)
  {
    hide SetState;
    var m1 := Commit(m, AbandonWrite(id, c, 0));
    assert AbandonSteps(m, id, c, 1) == m1;
    assert AbandonSteps(m, id, c, 2) == Commit(m1, AbandonWrite(id, c, 1));
  }

  lemma AbandonKeeps(m: Machine, id: nat)
    requires m.halt.Alive? && Inv(m.s) && id < |m.s.candidates| && Pre(m.s, id)
    ensures
      var c := m.s.candidates[id];
      var t := AbandonSteps(m, id, c, ABANDON_WRITES);
      Inv(t.s) && !t.halt.Threw? && (t.halt.Alive? <==> ABANDON_WRITES <= m.left)
      && (t.halt.Alive? ==>
          Clean(t.s) && Consistent(t.s, c.base) && t.s.candidates[id] == c.(state := Failed, phase := Restored))
  {
    var s, c := m.s, m.s.candidates[id];
    AbandonFirst(s, id);
    var u := s.(generations := SetState(s.generations, c.target.value, GenFailed));
    AbandonSecond(u, id);
    assert Inv(u) && Inv(u.(candidates := u.candidates[id := c.(state := Failed, phase := Restored)]));
    hide Inv, Clean, Consistent, SetState, AbandonSteps;
    AbandonUnfold(m, id, c);
  }

  /** A restoration that is not cut short ends with the three stores naming the base again, and with no candidate
      unfinished. */
  lemma RestoreKeeps(m: Machine, id: nat, end: GenerationState)
    requires m.halt.Alive? && Inv(m.s) && id < |m.s.candidates| && (Pre(m.s, id) || Restorable(m.s, id)) && Outcome(end)
    ensures
      var t, c := Restore(m, id, end), m.s.candidates[id];
      Inv(t.s) && !t.halt.Threw? && (RESTORE_WRITES <= m.left ==> t.halt.Alive?)
      && (t.halt.Alive? ==> Clean(t.s) && Consistent(t.s, c.base) && !AnyUnfinished(t.s))
  {
    assert CandidateOk(m.s, id);
    if BeforeSwitch(m.s.candidates[id]) {
      AbandonKeeps(m, id);
    } else {
      RestoreStepsKeep(m, id, end, RESTORE_WRITES);
    }
  }

  // ---- Deletion ----

  /** What a deletion leaves alone: everything but the states of candidates that were not active, and their code. */
  ghost predicate OnlyDeletes(s: State, t: State) {
    && t == s.(candidates := t.candidates, intents := t.intents, files := t.files) && |t.candidates| == |s.candidates|
    && forall i :: 0 <= i < |s.candidates| ==> t.candidates[i] == s.candidates[i].(state := t.candidates[i].state)
  }

  /** The state once the deletion's intent is recorded. */
  function Marked(s: State, id: nat, expected: nat): State
    requires id < |s.candidates|
  {
    if s.candidates[id].state.Deleting? then s
    else Do(s, DeletionIntent(id, Intent(expected, VersionOf(s, s.candidates[id])))).value
  }

  ghost predicate MayDelete(s: State, id: nat, expected: nat)
    requires id < |s.candidates|
  {
    && Consistent(s, expected) && (if s.candidates[id].state.Deleting?
        then Doomed(s, id) && s.intents[id].active == expected else Clean(s))
    && CanDeleteRelease(if s.candidates[id].state.Deleting? then Failed else s.candidates[id].state, Built(id),
                        if s.candidates[id].state.Deleting? then s.intents[id].number
                        else VersionOf(s, s.candidates[id]),
                        s.generations[expected], RestoredToActive(s))
  }

  lemma MarkKeeps(s: State, id: nat, expected: nat)
    requires TablesOk(s) && id < |s.candidates| && MayDelete(s, id, expected)
    ensures TablesOk(Marked(s, id, expected)) && Doomed(Marked(s, id, expected), id)
  {
    var c, a := s.candidates[id], Marked(s, id, expected);
    assert CandidateOk(s, id);
    if !c.state.Deleting? {
      NoBirthOf(s, id);
      TablesAfterRow(s, id, c.(state := Deleting));
      SameTables(s.(candidates := a.candidates), a);
    }
  }

  lemma StripKeeps(a: State, id: nat)
    requires TablesOk(a) && id < |a.candidates| && Doomed(a, id)
    ensures var b := a.(files := a.files - {Built(id)}); TablesOk(b) && Doomed(b, id)
  {
    SameTables(a, a.(files := a.files - {Built(id)}));
  }

  lemma GoneKeeps(b: State, id: nat)
    requires TablesOk(b) && id < |b.candidates| && Doomed(b, id)
    ensures var d := b.(candidates := b.candidates[id := b.candidates[id].(state := Deleted)]); TablesOk(d) && Clean(d)
  {
    var d := b.(candidates := b.candidates[id := b.candidates[id].(state := Deleted)]);
    assert CandidateOk(b, id);
    NoBirthOf(b, id);
    TablesAfterRow(b, id, b.candidates[id].(state := Deleted));
    assert Consistent(d, b.intents[id].active);
    forall j | 0 <= j < |d.candidates| ensures !Unfinished(d.candidates[j]) {
      assert !Unfinished(b.candidates[j]) || j == id;
    }
  }

  lemma DeleteOutcome(m: Machine, id: nat, expected: nat)
    requires m.halt.Alive? && id < |m.s.candidates| && TablesOk(m.s) && (Clean(m.s) || Doomed(m.s, id))
        && (m.s.candidates[id].state.Deleting? ==> Doomed(m.s, id))
    ensures
      var s, t := m.s, DeleteRelease(m, id, expected);
      var a := Marked(s, id, expected);
      var b := a.(files := a.files - {Built(id)});
      var d := b.(candidates := b.candidates[id := b.candidates[id].(state := Deleted)]);
      && (t == m || (t.halt.Threw? && t.s == s) || MayDelete(s, id, expected))
      && (MayDelete(s, id, expected) ==>
            (t.halt.Died? && (t.s == s || t.s == a || t.s == b)) || (t.halt.Alive? && t.s == d))
      && (m.left >= 3 || (m.left >= 2 && s.candidates[id].state.Deleting?) ==> !t.halt.Died?)
      && (t == m ==> s.candidates[id].state.Deleted?)
  {
    hide TablesOk;
    if Doomed(m.s, id) {
      OnlyDoomed(m.s, id);
    }
  }

  lemma OnlyDoomed(s: State, id: nat)
    requires TablesOk(s) && id < |s.candidates| && Doomed(s, id)
    ensures !AnyInTransition(s)
  {
  }

  lemma DeleteKeeps(m: Machine, id: nat, expected: nat)
    requires m.halt.Alive? && Inv(m.s) && id < |m.s.candidates| && (Clean(m.s) || Doomed(m.s, id))
    requires m.s.candidates[id].state.Deleting? ==> Doomed(m.s, id)
    ensures
      var t := DeleteRelease(m, id, expected);
      Inv(t.s) && OnlyDeletes(m.s, t.s)
      && (m.s.candidates[id].state.Deleting? && expected == m.s.intents[id].active ==>
          !t.halt.Threw? && (2 <= m.left ==> t.halt.Alive?))
      && (t.halt.Alive? ==> Clean(t.s) && t.s.candidates[id].state.Deleted?)
      && (t.halt.Threw? ==> t.s == m.s)
  {
    hide TablesOk, DeleteRelease, Clean;
    DeleteOutcome(m, id, expected);
    if MayDelete(m.s, id, expected) {
      var a := Marked(m.s, id, expected);
      MarkKeeps(m.s, id, expected);
      StripKeeps(a, id);
      GoneKeeps(a.(files := a.files - {Built(id)}), id);
    }
  }

  lemma NoBirthOf(s: State, id: nat)
    requires TablesOk(s) && id < |s.candidates| && !InTransition(s.candidates[id])
    ensures forall g :: g in s.generations && s.generations[g].release == Built(id) ==>
        !s.generations[g].state.GenBirthing?
  {
  }

  lemma SameTables(s: State, t: State)
    requires TablesOk(s) && t == s.(intents := t.intents, files := t.files, restored := t.restored,
        pointer := t.pointer, release := t.release)
    ensures TablesOk(t)
  {
    forall i | 0 <= i < |t.candidates| ensures CandidateOk(t, i) {
      assert CandidateOk(s, i);
    }
  }
}
