/** Where recovery stops converging: a rollback over something unfinished, a birth over a deletion cut short. */
module SupervisorLimits {
  import opened Wrappers
  import opened ReleaseHistory
  import opened Supervisor
  import opened SupervisorResults
  import opened SupervisorRuns

  /** Before the switch recovery finds another generation active; after it the lineage refuses a second active row. */
  lemma StrandedTransition(t: Machine, u: nat, active: nat)
    requires t.halt.Alive? && RESTORE_WRITES <= t.left && u < |t.s.candidates| && InTransition(t.s.candidates[u])
        && t.s.candidates[u].target.Some?
    requires t.s.candidates[u].base in t.s.generations && Active(t.s.generations, active)
    requires active != t.s.candidates[u].base && active != t.s.candidates[u].target.value
        && !Active(t.s.generations, t.s.candidates[u].base)
    requires forall j :: 0 <= j < |t.s.candidates| && j != u ==> !Unfinished(t.s.candidates[j])
    ensures Recover(t).halt == Threw(if BeforeSwitch(t.s.candidates[u]) then "PRE_SWITCH_RECOVERY_CONFLICT"
        else "SQLITE_CONSTRAINT_UNIQUE")
  {
    NothingToDelete(t, 0);
    FirstTransition(t, 0, u);
    var c := t.s.candidates[u];
    var r := Restore(t, u, GenFailed);
    if !BeforeSwitch(c) {
      assert Active(SetState(SetState(t.s.generations, c.target.value, GenFailed), c.base, GenActive), active);
      RestoreStepsUnfold(t, u, c, t.s.generations[c.base].release, GenFailed);
    }
    NothingInTransition(r, u + 1);
  }

  // ---- A birth over a deletion cut short ----

  /** The same state with the interrupted deletion of `u` finished. */
  function Finished(s: State, u: nat): State
    requires u < |s.candidates|
  {
    s.(candidates := s.candidates[u := s.candidates[u].(state := Deleted)])
  }

  function Over(m: Machine, u: nat): Machine
    requires u < |m.s.candidates|
  {
    m.(s := Finished(m.s, u))
  }

  predicate Spares(w: Write, u: nat) {
    !w.DeletionIntent? && !w.RemoveFiles? && (w.Row? ==> w.id != u)
  }

  /** Nothing but the row of `u` differs, before the write and after it. */
  lemma CommitOver(m: Machine, u: nat, w: Write)
    requires u < |m.s.candidates| && Spares(w, u)
    ensures Commit(Over(m, u), w) == Over(Commit(m, w), u)
    ensures Commit(m, w).s.candidates[u] == m.s.candidates[u] && Commit(m, w).s.intents == m.s.intents
    ensures !w.RestoredEvent? ==> Commit(m, w).s.restored == m.s.restored
  {
    if w.Row? && w.id < |m.s.candidates| {
      var a, b := m.s.candidates[u := m.s.candidates[u].(state := Deleted)], m.s.candidates[w.id := w.row];
      assert a[w.id := w.row] == b[u := b[u].(state := Deleted)];
    }
  }

  lemma {:induction false} BirthStepsOver(m: Machine, id: nat, c: Candidate, k: nat, u: nat)
    requires u < |m.s.candidates| && u != id && k <= BIRTH_WRITES
    ensures BirthSteps(Over(m, u), id, c, k) == Over(BirthSteps(m, id, c, k), u)
    ensures BirthSteps(m, id, c, k).s.candidates[u] == m.s.candidates[u]
    ensures BirthSteps(m, id, c, k).s.intents == m.s.intents && BirthSteps(m, id, c, k).s.restored == m.s.restored
  {
    hide Over, Commit;
    if k > 0 {
      BirthStepsOver(m, id, c, k - 1, u);
      CommitOver(BirthSteps(m, id, c, k - 1), u, BirthWrite(id, c, k - 1));
    }
  }

  lemma {:induction false} AbandonStepsOver(m: Machine, id: nat, c: Candidate, k: nat, u: nat)
    requires u < |m.s.candidates| && u != id && k <= ABANDON_WRITES && c.target.Some?
    ensures AbandonSteps(Over(m, u), id, c, k) == Over(AbandonSteps(m, id, c, k), u)
    ensures AbandonSteps(m, id, c, k).s.candidates[u] == m.s.candidates[u]
    ensures AbandonSteps(m, id, c, k).s.intents == m.s.intents && AbandonSteps(m, id, c, k).s.restored == m.s.restored
  {
    hide Over, Commit;
    if k > 0 {
      AbandonStepsOver(m, id, c, k - 1, u);
      CommitOver(AbandonSteps(m, id, c, k - 1), u, AbandonWrite(id, c, k - 1));
    }
  }

  lemma {:induction false} RestoreStepsOver(m: Machine, id: nat, c: Candidate, previous: Release, end: GenerationState,
      k: nat, u: nat)
    requires u < |m.s.candidates| && u != id && k <= RESTORE_WRITES && c.target.Some?
    ensures RestoreSteps(Over(m, u), id, c, previous, end, k) == Over(RestoreSteps(m, id, c, previous, end, k), u)
    ensures RestoreSteps(m, id, c, previous, end, k).s.candidates[u] == m.s.candidates[u]
    ensures RestoreSteps(m, id, c, previous, end, k).s.intents == m.s.intents
    ensures k < RESTORE_WRITES ==> RestoreSteps(m, id, c, previous, end, k).s.restored == m.s.restored
  {
    hide Over, Commit;
    if k > 0 {
      RestoreStepsOver(m, id, c, previous, end, k - 1, u);
      CommitOver(RestoreSteps(m, id, c, previous, end, k - 1), u, RestoreWrite(id, c, previous, end, k - 1));
    }
  }

  /** The state on which a birth over the deletion of `u` behaves as if that deletion were finished. */
  lemma OverIsClean(m: Machine, id: nat, u: nat)
    requires m.halt.Alive? && Inv(m.s) && BirthRefusal(m.s, id).None? && u < |m.s.candidates| && Doomed(m.s, u)
    ensures id < |m.s.candidates| && u != id && Inv(Over(m, u).s) && Clean(Over(m, u).s)
        && BirthRefusal(Over(m, u).s, id).None?
    ensures Over(m, u).s.candidates[id] == m.s.candidates[id]
    ensures m.s.intents[u].active == m.s.candidates[id].base
    ensures forall j :: 0 <= j < |m.s.candidates| && j != u ==> !Unfinished(m.s.candidates[j])
  {
    GoneKeeps(m.s, u);
    OnlyDoomed(m.s, u);
    UniqueActive(m.s);
  }

  // ---- What recovery does with it ----

  lemma DeletionThrows(t: Machine, u: nat)
    requires t.halt.Alive? && u < |t.s.candidates| && t.s.candidates[u].state.Deleting? && u in t.s.intents
    requires forall j :: 0 <= j < |t.s.candidates| && j != u ==> !t.s.candidates[j].state.Deleting?
    requires AnyInTransition(t.s) || !Active(t.s.generations, t.s.intents[u].active)
    ensures Recover(t).halt.Threw?
  {
    FirstDeletion(t, 0, u);
    var d := DeleteRelease(t, u, t.s.intents[u].active);
    NothingToDelete(d, u + 1);
    NothingInTransition(d, 0);
  }

  lemma DeletionFinishes(t: Machine, u: nat)
    requires t.halt.Alive? && t.left >= 2 && u < |t.s.candidates| && t.s.candidates[u].state.Deleting?
        && u in t.s.intents
    requires forall j :: 0 <= j < |t.s.candidates| && j != u ==> !Unfinished(t.s.candidates[j])
    requires Consistent(t.s, t.s.intents[u].active) && RestoredToActive(t.s)
    requires CanDeleteRelease(Failed, Built(u), t.s.intents[u].number, t.s.generations[t.s.intents[u].active], true)
    ensures Recover(t).halt.Alive?
  {
    FirstDeletion(t, 0, u);
    var d := DeleteRelease(t, u, t.s.intents[u].active);
    assert !AnyInTransition(t.s);
    assert d.halt.Alive? && d.s.candidates == t.s.candidates[u := t.s.candidates[u].(state := Deleted)];
    NothingToDelete(d, u + 1);
    NothingInTransition(d, 0);
  }

  // ---- Where a birth may die ----

  /** The row of the candidate, from the first write of its birth to the last but one. */
  lemma {:induction false} BirthRow(m: Machine, id: nat, c: Candidate, k: nat)
    requires m.halt.Alive? && id < |m.s.candidates| && k <= BIRTH_WRITES && !BirthSteps(m, id, c, k).halt.Threw?
    ensures
      var t := BirthSteps(m, id, c, k);
      && (t.halt.Alive? ==> t.left + k == m.left)
      && (m.left == 0 ==> t.s == m.s)
      && (m.left > 0 && k > 0 && (k < BIRTH_WRITES || m.left < BIRTH_WRITES) ==> t.s.candidates[id].state.Birthing?)
  {
    if k > 0 {
      BirthRow(m, id, c, k - 1);
      if k == BIRTH_WRITES && m.left < BIRTH_WRITES {
        DeadOnArrival(BirthSteps(m, id, c, k - 1), BirthWrite(id, c, k - 1));
      }
    }
  }

  lemma DeadOnArrival(m: Machine, w: Write)
    requires !m.halt.Alive? || m.left == 0
    ensures Commit(m, w).s == m.s
  {
  }

  lemma {:induction false} RestoreRow(m: Machine, id: nat, c: Candidate, previous: Release, end: GenerationState,
      k: nat)
    requires m.halt.Alive? && id < |m.s.candidates| && c.target.Some? && k <= RESTORE_WRITES
    requires !RestoreSteps(m, id, c, previous, end, k).halt.Threw?
    ensures
      var t := RestoreSteps(m, id, c, previous, end, k);
      && (t.halt.Alive? ==> t.left + k == m.left)
      && (m.left == 0 ==> t.s == m.s)
      && (m.left > 0 && k > 0 && (k < 5 || m.left < 5) ==>
          t.s.candidates[id] == c.(state := RollingBack, phase := Stopping))
      && (k == RESTORE_WRITES && m.left == 5 ==> t.s == RestoreSteps(m, id, c, previous, end, 5).s)
  {
    if k > 0 {
      RestoreRow(m, id, c, previous, end, k - 1);
      var t := RestoreSteps(m, id, c, previous, end, k - 1);
      if !t.halt.Alive? || t.left == 0 {
        DeadOnArrival(t, RestoreWrite(id, c, previous, end, k - 1));
      }
    }
  }

  /** With the deletion of `u` pending, everyone else is finished but perhaps `id`, whose row alone has changed. */
  ghost predicate Beside(m: Machine, t: Machine, id: nat, u: nat) {
    && |t.s.candidates| == |m.s.candidates| && id < |m.s.candidates| && u < |m.s.candidates| && u != id
    && (forall j :: 0 <= j < |m.s.candidates| && j != id ==> t.s.candidates[j] == m.s.candidates[j])
    && t.s.intents == m.s.intents
  }

  lemma BirthBeside(m: Machine, id: nat, c: Candidate, k: nat, u: nat)
    requires u < |m.s.candidates| && u != id && id < |m.s.candidates| && k <= BIRTH_WRITES
    ensures Beside(m, BirthSteps(m, id, c, k), id, u)
  {
    hide BirthSteps;
    BirthStepsOver(m, id, c, k, u);
    forall j | 0 <= j < |m.s.candidates| && j != id
      ensures BirthSteps(m, id, c, k).s.candidates[j] == m.s.candidates[j]
    {
      BirthStepsOver(m, id, c, k, j);
    }
  }

  lemma RestoreBeside(m: Machine, id: nat, c: Candidate, previous: Release, end: GenerationState, k: nat, u: nat)
    requires u < |m.s.candidates| && u != id && id < |m.s.candidates| && k <= RESTORE_WRITES && c.target.Some?
    ensures Beside(m, RestoreSteps(m, id, c, previous, end, k), id, u)
  {
    hide RestoreSteps;
    RestoreStepsOver(m, id, c, previous, end, k, u);
    forall j | 0 <= j < |m.s.candidates| && j != id
      ensures RestoreSteps(m, id, c, previous, end, k).s.candidates[j] == m.s.candidates[j]
    {
      RestoreStepsOver(m, id, c, previous, end, k, j);
    }
  }

  lemma AbandonBeside(m: Machine, id: nat, c: Candidate, u: nat)
    requires u < |m.s.candidates| && u != id && id < |m.s.candidates| && c.target.Some?
    ensures Beside(m, AbandonSteps(m, id, c, ABANDON_WRITES), id, u)
  {
    hide AbandonSteps;
    AbandonStepsOver(m, id, c, ABANDON_WRITES, u);
    forall j | 0 <= j < |m.s.candidates| && j != id
      ensures AbandonSteps(m, id, c, ABANDON_WRITES).s.candidates[j] == m.s.candidates[j]
    {
      AbandonStepsOver(m, id, c, ABANDON_WRITES, j);
    }
  }

  /** What a pending deletion needs of the state it is found in. */
  ghost predicate Pending(m: Machine, u: nat, base: nat) {
    && u < |m.s.candidates| && Doomed(m.s, u) && m.s.intents[u].active == base
    && forall j :: 0 <= j < |m.s.candidates| && j != u ==> !Unfinished(m.s.candidates[j])
  }

  /** The candidate was left in transition, or its generation has become the active one. */
  lemma Stranded(m: Machine, s: State, id: nat, u: nat, base: nat, left: nat)
    requires Pending(m, u, base) && Beside(m, Machine(s, left, Alive), id, u)
    requires InTransition(s.candidates[id]) || (!Unfinished(s.candidates[id]) && !Active(s.generations, base))
    ensures Recover(Machine(s, left, Alive)).halt.Threw?
  {
    DeletionThrows(Machine(s, left, Alive), u);
  }

  /** The candidate is finished and the base still what it was. */
  lemma Unharmed(m: Machine, s: State, id: nat, u: nat, base: nat, left: nat)
    requires Pending(m, u, base) && Beside(m, Machine(s, left, Alive), id, u) && left >= 2
    requires !Unfinished(s.candidates[id]) && Consistent(s, base)
        && s.generations[base].release == m.s.generations[base].release
    requires s.generations[base].number == m.s.generations[base].number && s.restored == Some(base)
    ensures Recover(Machine(s, left, Alive)).halt.Alive?
  {
    DeletionFinishes(Machine(s, left, Alive), u);
  }

  // ---- Exactly when ----

  /** The process lives for the writes of a birth that fails and for those that take it back, up to the last that its
      candidate needs; or it writes nothing at all. */
  predicate TakenBack(fail: Option<nat>, left: nat) {
    left == 0 || (fail.Some? && (fail.value == 0 || left >= Written(fail.value) + Undone(Written(fail.value))))
  }

  function Written(fail: nat): nat {
    if fail < BIRTH_WRITES then fail else BIRTH_WRITES
  }

  /** Two writes abandon a birth before the switch; after it the fifth finishes the candidate. */
  function Undone(written: nat): nat {
    if written <= 3 then ABANDON_WRITES else RESTORE_WRITES - 1
  }

  lemma SameBase(s: State, t: State, id: nat)
    requires TablesOk(s) && TablesOk(t) && id < |s.candidates| && id < |t.candidates|
    requires t.candidates[id].base == s.candidates[id].base
        && t.candidates[id].baseRelease == s.candidates[id].baseRelease
    ensures
      var base := s.candidates[id].base;
      && base in s.generations && base in t.generations && t.generations[base].release == s.generations[base].release
      && t.generations[base].number == s.generations[base].number
  {
    assert CandidateOk(s, id) && CandidateOk(t, id);
  }

  /** A birth over `u` in which nothing fails, or the part of one before it fails. */
  lemma BirthStepsOverDeletion(m: Machine, id: nat, u: nat, k: nat, left: nat)
    requires m.halt.Alive? && Inv(m.s) && BirthRefusal(m.s, id).None? && u < |m.s.candidates| && Doomed(m.s, u)
    requires 0 < k <= BIRTH_WRITES && m.left > 0
    ensures
      var c := m.s.candidates[id];
      var t := BirthSteps(m, id, c, k);
      && u != id && !t.halt.Threw? && Pending(m, u, c.base) && Beside(m, t, id, u) && t.s.restored == m.s.restored
      && (t.halt.Alive? <==> k <= m.left) && (t.halt.Alive? ==> t.left + k == m.left)
      && (t.halt.Alive? ==> BirthAt(Over(t, u), id, c, k))
      && (t.halt.Died? || k == BIRTH_WRITES ==> Recover(Machine(t.s, left, Alive)).halt.Threw?)
  {
    hide Inv, BirthAt, Pending, BirthSteps, BirthRefusal;
    OverIsClean(m, id, u);
    var c := m.s.candidates[id];
    var t := BirthSteps(m, id, c, k);
    BirthStepsKeep(Over(m, u), id, k);
    BirthStepsOver(m, id, c, k, u);
    BirthBeside(m, id, c, k, u);
    BirthRow(m, id, c, k);
    PendingAt(m, u, c.base);
    if t.halt.Died? {
      Stranded(m, t.s, id, u, c.base, left);
    } else if k == BIRTH_WRITES {
      BornElsewhere(Over(t, u), id, c);
      Stranded(m, t.s, id, u, c.base, left);
    }
  }

  lemma PendingAt(m: Machine, u: nat, base: nat)
    requires u < |m.s.candidates| && Doomed(m.s, u) && m.s.intents[u].active == base
    requires forall j :: 0 <= j < |m.s.candidates| && j != u ==> !Unfinished(m.s.candidates[j])
    ensures Pending(m, u, base)
  {
  }

  lemma BornElsewhere(t: Machine, id: nat, c: Candidate)
    requires BirthAt(t, id, c, BIRTH_WRITES)
    ensures t.s.candidates[id].state.Born? && !Active(t.s.generations, c.base)
  {
    assert CandidateOk(t.s, id);
    UniqueActive(t.s);
  }

  /** Where the first `k` writes of a birth leave the candidate. */
  lemma BornSoFar(n: Machine, id: nat, c: Candidate, k: nat)
    requires BirthAt(n, id, c, k) && k > 0
    ensures
      var row := n.s.candidates[id];
      && row.target.Some? && row.base == c.base && row.baseRelease == c.baseRelease && c.base in n.s.generations
      && (BeforeSwitch(row) <==> k <= 3) && (k < BIRTH_WRITES ==> InTransition(row))
      && (if k <= 3 then Pre(n.s, id) else Restorable(n.s, id))
  {
    assert CandidateOk(n.s, id);
  }

  /** A birth taken back before the switch. */
  lemma TakenBackEarly(m: Machine, m1: Machine, id: nat, u: nat, c: Candidate, k: nat, left: nat)
    requires m.halt.Alive? && Inv(m.s) && id < |m.s.candidates| && c == m.s.candidates[id]
    requires Pending(m, u, c.base) && Beside(m, m1, id, u) && m1.s.restored == m.s.restored == Some(c.base)
    requires m1.halt.Alive? && 0 < k <= 3 && BirthAt(Over(m1, u), id, c, k) && left >= 2
    ensures
      var r := Recover(Machine(Restore(m1, id, GenFailed).s, left, Alive)).halt;
      (r.Alive? <==> m1.left >= Undone(k)) && (r.Alive? || r.Threw?)
  {
    hide Pending, Recover, TablesOk, StageOk, AbandonSteps, RestoreSteps, BirthAt;
    var n := Over(m1, u);
    BornSoFar(n, id, c, k);
    InvWhenBirthAt(n, id, c, k);
    var row := m1.s.candidates[id];
    AbandonStepsOver(m1, id, row, ABANDON_WRITES, u);
    AbandonBeside(m1, id, row, u);
    AbandonKeeps(n, id);
    var t := AbandonSteps(m1, id, row, ABANDON_WRITES);
    assert Restore(m1, id, GenFailed) == t;
    if t.halt.Alive? {
      TablesOfInv(m.s);
      TablesOfInv(Over(t, u).s);
      SameBase(m.s, Over(t, u).s, id);
      Unharmed(m, t.s, id, u, c.base, left);
    } else {
      AbandonUnfold(m1, id, row);
      Stranded(m, t.s, id, u, c.base, left);
    }
  }

  lemma TablesOfInv(s: State)
    requires Inv(s)
    ensures TablesOk(s)
  {
  }

  /** A birth taken back after the switch: its fifth write finishes the candidate. */
  lemma TakenBackLate(m: Machine, m1: Machine, id: nat, u: nat, c: Candidate, k: nat, left: nat)
    requires m.halt.Alive? && Inv(m.s) && id < |m.s.candidates| && c == m.s.candidates[id]
    requires Pending(m, u, c.base) && Beside(m, m1, id, u) && m1.s.restored == m.s.restored == Some(c.base)
    requires m1.halt.Alive? && 3 < k <= BIRTH_WRITES && BirthAt(Over(m1, u), id, c, k) && left >= 2
    ensures
      var r := Recover(Machine(Restore(m1, id, GenFailed).s, left, Alive)).halt;
      (r.Alive? <==> m1.left >= Undone(k)) && (r.Alive? || r.Threw?)
  {
    hide Pending, Recover, TablesOk, StageOk, AbandonSteps, RestoreSteps, BirthAt, Restorable;
    var n := Over(m1, u);
    BornSoFar(n, id, c, k);
    InvWhenBirthAt(n, id, c, k);
    var row := m1.s.candidates[id];
    var previous := m1.s.generations[c.base].release;
    var j := if m1.left < RESTORE_WRITES then m1.left else RESTORE_WRITES;
    RestoreStepsKeep(n, id, GenFailed, RESTORE_WRITES);
    RestoreStepsKeep(n, id, GenFailed, j);
    RestoreStepsOver(m1, id, row, previous, GenFailed, RESTORE_WRITES, u);
    RestoreStepsOver(m1, id, row, previous, GenFailed, j, u);
    RestoreBeside(m1, id, row, previous, GenFailed, RESTORE_WRITES, u);
    RestoreRow(m1, id, row, previous, GenFailed, RESTORE_WRITES);
    var t := RestoreSteps(m1, id, row, previous, GenFailed, RESTORE_WRITES);
    assert Restore(m1, id, GenFailed) == t;
    if m1.left >= 5 {
      var v := RestoreSteps(m1, id, row, previous, GenFailed, j);
      TablesOfInv(m.s);
      TablesOfInv(Over(v, u).s);
      SameBase(m.s, Over(v, u).s, id);
      Unharmed(m, t.s, id, u, c.base, left);
    } else if m1.left > 0 || k < BIRTH_WRITES {
      Stranded(m, t.s, id, u, c.base, left);
    } else {
      BornElsewhere(n, id, c);
      Stranded(m, t.s, id, u, c.base, left);
    }
  }

  lemma RefusedBirth(m: Machine, id: nat, fail: Option<nat>)
    requires m.halt.Alive? && (BirthRefusal(m.s, id).Some? || m.left == 0)
    ensures Birth(m, id, fail).s == m.s
  {
    if BirthRefusal(m.s, id).None? {
      var k := if fail.Some? then Written(fail.value) else BIRTH_WRITES;
      NothingWritten(m, id, m.s.candidates[id], k);
    }
  }

  lemma {:induction false} NothingWritten(m: Machine, id: nat, c: Candidate, k: nat)
    requires m.halt.Alive? && m.left == 0
    ensures BirthSteps(m, id, c, k) == if k == 0 then m else m.(halt := Died)
  {
    if k > 0 {
      NothingWritten(m, id, c, k - 1);
    }
  }

  /** A birth that fails before its first write. */
  lemma FailedFirst(m: Machine, id: nat, u: nat, left: nat)
    requires m.halt.Alive? && m.left > 0 && id < |m.s.candidates| && Pending(m, u, m.s.candidates[id].base) && u != id
    requires BirthRefusal(m.s, id).None? && m.s.restored == Some(m.s.candidates[id].base) && left >= 2
    ensures Recover(Machine(Birth(m, id, Some(0)).s, left, Alive)).halt.Alive?
  {
    hide Recover, Doomed;
    var c := m.s.candidates[id];
    Unharmed(m, Birth(m, id, Some(0)).s, id, u, c.base, left);
  }

  lemma DeletionPends(m: Machine, id: nat, u: nat)
    requires m.halt.Alive? && Inv(m.s) && BirthRefusal(m.s, id).None? && u < |m.s.candidates| && Doomed(m.s, u)
    ensures id < |m.s.candidates| && u != id && !m.s.candidates[id].state.Born?
    ensures Pending(m, u, m.s.candidates[id].base) && m.s.restored == Some(m.s.candidates[id].base)
  {
    OverIsClean(m, id, u);
    UniqueActive(m.s);
  }

  /** A birth over an interrupted deletion, wherever something in it fails and wherever its process dies. */
  lemma BirthOverDeletion(m: Machine, id: nat, fail: Option<nat>, u: nat, left: nat)
    requires m.halt.Alive? && Inv(m.s) && BirthRefusal(m.s, id).None? && u < |m.s.candidates| && Doomed(m.s, u)
    requires m.left > 0 && left >= 2
    ensures
      var r := Recover(Machine(Birth(m, id, fail).s, left, Alive)).halt;
      (r.Alive? <==> TakenBack(fail, m.left)) && (r.Alive? || r.Threw?)
  {
    hide Inv, Recover, BirthSteps, Restore, Pending, Beside, BirthAt, Doomed, BirthRefusal, Undone;
    DeletionPends(m, id, u);
    var c := m.s.candidates[id];
    if fail == Some(0) {
      FailedFirst(m, id, u, left);
    } else {
      var k := if fail.Some? then Written(fail.value) else BIRTH_WRITES;
      BirthStepsOverDeletion(m, id, u, k, left);
      var t := BirthSteps(m, id, c, k);
      if fail.Some? && t.halt.Alive? {
        if k <= 3 {
          TakenBackEarly(m, t, id, u, c, k, left);
        } else {
          TakenBackLate(m, t, id, u, c, k, left);
        }
      } else if fail.Some? {
        DeadRestore(t, id);
      }
    }
  }

  lemma DeadRestore(t: Machine, id: nat)
    requires !t.halt.Alive?
    ensures Restore(t, id, GenFailed) == t
  {
  }

  /** `birth` looks for candidates in transition, but not for a deletion cut short. Exactly when recovery still works
      after it, whether the birth completes, fails at any of its steps or dies after any of its writes: when nothing was
      being deleted, the birth was refused, or it was taken back. Otherwise every recovery throws. */
  lemma BirthStrandsExactlyOverADeletion(m: Machine, id: nat, fail: Option<nat>, left: nat)
    requires m.halt.Alive? && Inv(m.s) && RESTORE_WRITES <= left
    ensures
      var r := Recover(Machine(Birth(m, id, fail).s, left, Alive)).halt;
      && (r.Alive? <==> !AnyUnfinished(m.s) || BirthRefusal(m.s, id).Some? || TakenBack(fail, m.left))
      && (r.Alive? || r.Threw?)
  {
    if BirthRefusal(m.s, id).Some? || m.left == 0 {
      RefusedBirth(m, id, fail);
      RecoverConverges(Machine(m.s, left, Alive));
    } else if !AnyUnfinished(m.s) {
      InvFinishedIsClean(m.s);
      BirthKeeps(m, id, fail);
      RecoverConverges(Machine(Birth(m, id, fail).s, left, Alive));
    } else {
      var u :| 0 <= u < |m.s.candidates| && (Pre(m.s, u) || Mid(m.s, u) || Doomed(m.s, u));
      BirthOverDeletion(m, id, fail, u, left);
    }
  }

  // ---- A rollback over anything unfinished ----

  /** What is left of `s` after `j` writes of a restoration. */
  function AfterRestore(s: State, id: nat, c: Candidate, previous: Release, end: GenerationState, j: nat): State
    requires id < |s.candidates| && c.target.Some?
  {
    s.(candidates :=
         if j == 0 then s.candidates
         else if j < 5 then s.candidates[id := c.(state := RollingBack, phase := Stopping)]
         else s.candidates[id := c.(state := Ending(end), phase := Restored)],
       release := if j < 2 then s.release else previous,
       pointer := if j < 3 then s.pointer else c.base,
       generations := if j < 4 then s.generations
       else SetState(SetState(s.generations, c.target.value, end), c.base, GenActive),
       restored := if j < 6 then s.restored else Some(c.base))
  }

  /** A restoration that the lineage accepts, wherever its process dies. */
  lemma {:induction false} RestoreStepsAre(m: Machine, id: nat, c: Candidate, previous: Release, end: GenerationState,
      k: nat)
    requires m.halt.Alive? && id < |m.s.candidates| && c.target.Some? && k <= RESTORE_WRITES
    requires forall h :: Active(SetState(SetState(m.s.generations, c.target.value, end), c.base, GenActive), h) ==>
        h == c.base
    ensures
      RestoreSteps(m, id, c, previous, end, k) ==
        if k <= m.left then Machine(AfterRestore(m.s, id, c, previous, end, k), m.left - k, Alive)
        else Machine(AfterRestore(m.s, id, c, previous, end, m.left), 0, Died)
  {
    hide SetState;
    if k > 0 {
      RestoreStepsAre(m, id, c, previous, end, k - 1);
    }
  }

  /** The rollback's own guard. */
  predicate Admitted(s: State, id: nat) {
    id < |s.candidates| && s.candidates[id].state.Born? && s.candidates[id].target.Some?
        && Active(s.generations, s.candidates[id].target.value)
  }

  /** The one active generation is about to be the rolled-back candidate's base, and no other. */
  lemma RollbackSwitches(s: State, id: nat, gens: Generations, end: GenerationState)
    requires TablesOk(s) && Admitted(s, id) && Outcome(end)
    requires gens == s.generations
      || gens == SetState(SetState(s.generations, s.candidates[id].target.value, GenRolledBack), s.candidates[id].base,
          GenActive)
    ensures
      var c := s.candidates[id];
      && c.base in s.generations && c.base != c.target.value && !BeforeSwitch(c)
      && gens.Keys == s.generations.Keys == SetState(SetState(gens, c.target.value, end), c.base, GenActive).Keys
      && forall h :: Active(SetState(SetState(gens, c.target.value, end), c.base, GenActive), h) <==> h == c.base
  {
    var c := s.candidates[id];
    assert CandidateOk(s, id);
    UniqueActive(s);
    SuccessionShape(s.generations, c.target.value, GenRolledBack, c.base);
    SuccessionShape(gens, c.target.value, end, c.base);
  }

  /** A candidate in transition stands on the generation that is rolled back from under it, and comes after it in the
      table. */
  lemma UnderRollback(s: State, id: nat, u: nat)
    requires TablesOk(s) && Admitted(s, id) && u < |s.candidates| && (Pre(s, u) || Mid(s, u))
    ensures
      var d, c := s.candidates[id], s.candidates[u];
      && id < u && InTransition(c) && c.target.Some? && c.base == d.target.value && c.base in s.generations
          && d.base != c.base
      && d.base != c.target.value && d.base in s.generations
    ensures forall j :: 0 <= j < |s.candidates| && j != u ==> !Unfinished(s.candidates[j])
  {
    assert CandidateOk(s, id) && CandidateOk(s, u);
    UniqueActive(s);
  }

  /** After the candidate was finished, or the whole restoration done. */
  lemma LateRollback(m: Machine, id: nat, u: nat, j: nat, left: nat)
    requires m.halt.Alive? && Inv(m.s) && Admitted(m.s, id) && u < |m.s.candidates|
        && (Pre(m.s, u) || Mid(m.s, u) || Doomed(m.s, u))
    requires 5 <= j <= RESTORE_WRITES && RESTORE_WRITES <= left
    ensures
      var c := m.s.candidates[id];
      c.base in m.s.generations
      && Recover(Machine(AfterRestore(m.s, id, c, m.s.generations[c.base].release, GenRolledBack, j), left,
          Alive)).halt.Threw?
  {
    hide Recover;
    var d := m.s.candidates[id];
    RollbackSwitches(m.s, id, m.s.generations, GenRolledBack);
    UniqueActive(m.s);
    var t := Machine(AfterRestore(m.s, id, d, m.s.generations[d.base].release, GenRolledBack, j), left, Alive);
    if m.s.candidates[u].state.Deleting? {
      DeletionThrows(t, u);
    } else {
      UnderRollback(m.s, id, u);
      StrandedTransition(t, u, d.base);
    }
  }

  /** Both are in transition now: recovery takes the rollback back first, and then finds the other's base gone. */
  lemma TwoInTransition(m: Machine, id: nat, u: nat, j: nat, left: nat)
    requires m.halt.Alive? && Inv(m.s) && Admitted(m.s, id) && u < |m.s.candidates| && (Pre(m.s, u) || Mid(m.s, u))
    requires 1 <= j < 5 && RESTORE_WRITES <= left
    ensures
      var c := m.s.candidates[id];
      c.base in m.s.generations &&
      var r := Recover(Machine(AfterRestore(m.s, id, c, m.s.generations[c.base].release, GenRolledBack, j), left,
          Alive)).halt;
      !r.Alive? && (2 * RESTORE_WRITES <= left ==> r.Threw?)
  {
    hide TablesOk, StageOk, SetState, RestoreSteps, Pre, Mid;
    TablesOfInv(m.s);
    var d := m.s.candidates[id];
    UnderRollback(m.s, id, u);
    RollbackSwitches(m.s, id, m.s.generations, GenRolledBack);
    var previous := m.s.generations[d.base].release;
    var s := AfterRestore(m.s, id, d, previous, GenRolledBack, j);
    RollbackSwitches(m.s, id, s.generations, GenFailed);
    var t, row := Machine(s, left, Alive), s.candidates[id];
    NothingToDelete(t, 0);
    FirstTransition(t, 0, id);
    RestoreStepsAre(t, id, row, s.generations[d.base].release, GenFailed, RESTORE_WRITES);
    var t2 := Restore(t, id, GenFailed);
    assert t2 == Machine(AfterRestore(s, id, row, s.generations[d.base].release, GenFailed, RESTORE_WRITES),
        left - RESTORE_WRITES, Alive);
    FirstTransition(t2, id + 1, u);
    BaseIsGone(t2, u, d.base);
    NothingInTransition(Restore(t2, u, GenFailed), u + 1);
  }

  lemma BaseIsGone(t: Machine, u: nat, active: nat)
    requires t.halt.Alive? && u < |t.s.candidates| && InTransition(t.s.candidates[u]) && t.s.candidates[u].target.Some?
    requires t.s.candidates[u].base in t.s.generations && Active(t.s.generations, active)
    requires active != t.s.candidates[u].base && active != t.s.candidates[u].target.value
        && !Active(t.s.generations, t.s.candidates[u].base)
    ensures !Restore(t, u, GenFailed).halt.Alive? && (RESTORE_WRITES <= t.left ==> Restore(t, u, GenFailed).halt.Threw?)
  {
    var c := t.s.candidates[u];
    if !BeforeSwitch(c) {
      assert Active(SetState(SetState(t.s.generations, c.target.value, GenFailed), c.base, GenActive), active);
      RestoreStepsUnfold(t, u, c, t.s.generations[c.base].release, GenFailed);
      if !Restore(t, u, GenFailed).halt.Threw? {
        RestoreRow(t, u, c, t.s.generations[c.base].release, GenFailed, RESTORE_WRITES);
      }
    }
  }

  /** `rollback` looks for nothing unfinished. Exactly when recovery still works after it, wherever its process dies:
      when nothing was unfinished, the rollback was refused, or nothing of it was written. Otherwise no recovery
      completes, and one that lives for twelve writes throws. */
  lemma RollbackStrandsExactlyWhenUnfinished(m: Machine, id: nat, left: nat)
    requires m.halt.Alive? && Inv(m.s) && RESTORE_WRITES <= left
    ensures
      var r := Recover(Machine(Rollback(m, id).s, left, Alive)).halt;
      && (r.Alive? <==> !AnyUnfinished(m.s) || !Admitted(m.s, id) || m.left == 0)
      && (!r.Alive? && 2 * RESTORE_WRITES <= left ==> r.Threw?)
  {
    hide TablesOk, Recover, RestoreSteps, AfterRestore;
    if !AnyUnfinished(m.s) {
      InvFinishedIsClean(m.s);
      RollbackKeeps(m, id);
      RecoverConverges(Machine(Rollback(m, id).s, left, Alive));
    } else if !Admitted(m.s, id) {
      RecoverConverges(Machine(m.s, left, Alive));
    } else {
      var c := m.s.candidates[id];
      TablesOfInv(m.s);
      RollbackSwitches(m.s, id, m.s.generations, GenRolledBack);
      var previous := m.s.generations[c.base].release;
      RestoreStepsAre(m, id, c, previous, GenRolledBack, RESTORE_WRITES);
      assert Rollback(m, id) == RestoreSteps(m, id, c, previous, GenRolledBack, RESTORE_WRITES);
      RollbackCutShort(m, id, if m.left < RESTORE_WRITES then m.left else RESTORE_WRITES, left);
    }
  }

  lemma RollbackCutShort(m: Machine, id: nat, j: nat, left: nat)
    requires m.halt.Alive? && Inv(m.s) && AnyUnfinished(m.s) && Admitted(m.s, id) && j <= RESTORE_WRITES <= left
    ensures
      var c := m.s.candidates[id];
      c.base in m.s.generations && c.target.Some? &&
      var r := Recover(Machine(AfterRestore(m.s, id, c, m.s.generations[c.base].release, GenRolledBack, j), left,
          Alive)).halt;
      (r.Alive? <==> j == 0) && (!r.Alive? && 2 * RESTORE_WRITES <= left ==> r.Threw?)
  {
    hide TablesOk, Recover;
    TablesOfInv(m.s);
    RollbackSwitches(m.s, id, m.s.generations, GenRolledBack);
    var u :| 0 <= u < |m.s.candidates| && (Pre(m.s, u) || Mid(m.s, u) || Doomed(m.s, u));
    if j == 0 {
      RecoverConverges(Machine(m.s, left, Alive));
    } else if j >= 5 {
      LateRollback(m, id, u, j, left);
    } else if m.s.candidates[u].state.Deleting? {
      InterruptedOverDeletion(m, id, u, j, left);
    } else {
      TwoInTransition(m, id, u, j, left);
    }
  }

  lemma InterruptedOverDeletion(m: Machine, id: nat, u: nat, j: nat, left: nat)
    requires m.halt.Alive? && Inv(m.s) && Admitted(m.s, id) && u < |m.s.candidates| && Doomed(m.s, u) && 1 <= j < 5
    ensures
      var c := m.s.candidates[id];
      c.base in m.s.generations
      && Recover(Machine(AfterRestore(m.s, id, c, m.s.generations[c.base].release, GenRolledBack, j), left,
          Alive)).halt.Threw?
  {
    var c := m.s.candidates[id];
    RollbackSwitches(m.s, id, m.s.generations, GenRolledBack);
    var t := Machine(AfterRestore(m.s, id, c, m.s.generations[c.base].release, GenRolledBack, j), left, Alive);
    assert InTransition(t.s.candidates[id]);
    hide Recover, AfterRestore;
    DeletionThrows(t, u);
  }

  // ---- Runs that end stuck ----

  /** After the first birth, of generation 2 from generation 1. */
  const ONE_BORN := State(
    map[1 := Generation(1, 1, None, Release.Installed(0), GenRetired),
        2 := Generation(2, 2, Some(1), Built(0), GenActive)],
    [Candidate(Born, Completed, Some(2), 1, Release.Installed(0), 2)], 2, Built(0), None, map[],
    {Release.Installed(0), Built(0)})

  const FOUNDING := State(map[1 := Generation(1, 1, None, Release.Installed(0), GenActive)], [], 1,
      Release.Installed(0), None, map[], {Release.Installed(0)})

  lemma RunAppends(s: State, cs: seq<Command>, c: Command)
    ensures Run(s, cs + [c]) == Step(Run(s, cs), c)
  {
    assert (cs + [c])[..|cs|] == cs;
  }

  lemma FirstBirth(left: nat)
    requires left >= BIRTH_WRITES
    ensures Run(FOUNDING, [Submit(1, 2), Review(0, Validated), Review(0, Approved), BirthCommand(0, None, left)])
        == ONE_BORN
  {
    var a, b, c, d := Submit(1, 2), Review(0, Validated), Review(0, Approved), BirthCommand(0, None, left);
    RunAppends(FOUNDING, [], a);
    RunAppends(FOUNDING, [a], b);
    RunAppends(FOUNDING, [a, b], c);
    RunAppends(FOUNDING, [a, b, c], d);
    var s := Run(FOUNDING, [a, b, c]);
    assert [a] == [] + [a] && [a, b] == [a] + [b] && [a, b, c] == [a, b] + [c] && [a, b, c, d] == [a, b, c] + [d];
    var row := Candidate(Approved, NoPhase, None, 1, Release.Installed(0), 2);
    assert s == FOUNDING.(candidates := [row], files := {Release.Installed(0), Built(0)});
    FullBirth(s, left);
  }

  lemma FullBirth(s: State, left: nat)
    requires s == FOUNDING.(candidates := [Candidate(Approved, NoPhase, None, 1, Release.Installed(0), 2)],
        files := {Release.Installed(0), Built(0)})
    requires left >= BIRTH_WRITES
    ensures Birth(Machine(s, left, Alive), 0, None).s == ONE_BORN
  {
    var m, c := Machine(s, left, Alive), s.candidates[0];
    hide BirthSteps;
    assert BirthRefusal(s, 0).None? by { assert 1 in s.generations && s.generations[1].number + 1 == 2; }
    FirstWrites(m, c);
    LastWrites(m, c);
  }

  /** Half way through the first birth. */
  const HALF_BORN := FOUNDING.(
    generations := FOUNDING.generations[2 := Generation(2, 2, Some(1), Built(0), GenBirthing)],
    candidates := [Candidate(Birthing, Switching, Some(2), 1, Release.Installed(0), 2)],
    files := {Release.Installed(0), Built(0)})

  lemma FirstWrites(m: Machine, c: Candidate)
    requires m.halt.Alive? && m.left >= BIRTH_WRITES && c
        == Candidate(Approved, NoPhase, None, 1, Release.Installed(0), 2)
    requires m.s == FOUNDING.(candidates := [c], files := {Release.Installed(0), Built(0)})
    ensures BirthSteps(m, 0, c, 4) == Machine(HALF_BORN, m.left - 4, Alive)
  {
    var m1 := Commit(m, BirthWrite(0, c, 0));
    var m2 := Commit(m1, BirthWrite(0, c, 1));
    var m3 := Commit(m2, BirthWrite(0, c, 2));
    assert BirthSteps(m, 0, c, 1) == m1 && BirthSteps(m, 0, c, 2) == m2 && BirthSteps(m, 0, c, 3) == m3;
    assert BirthSteps(m, 0, c, 4) == Commit(m3, BirthWrite(0, c, 3));
  }

  lemma LastWrites(m: Machine, c: Candidate)
    requires c == Candidate(Approved, NoPhase, None, 1, Release.Installed(0), 2)
    requires BirthSteps(m, 0, c, 4).halt.Alive? && BirthSteps(m, 0, c, 4).left >= 5
        && BirthSteps(m, 0, c, 4).s == HALF_BORN
    ensures BirthSteps(m, 0, c, 9).s == ONE_BORN
  {
    var m4 := BirthSteps(m, 0, c, 4);
    var m5 := Commit(m4, BirthWrite(0, c, 4));
    var m6 := Commit(m5, BirthWrite(0, c, 5));
    var m7 := Commit(m6, BirthWrite(0, c, 6));
    var m8 := Commit(m7, BirthWrite(0, c, 7));
    assert BirthSteps(m, 0, c, 5) == m5 && BirthSteps(m, 0, c, 6) == m6 && BirthSteps(m, 0, c, 7) == m7
        && BirthSteps(m, 0, c, 8) == m8;
    assert m8.s.generations == ONE_BORN.generations;
    assert BirthSteps(m, 0, c, 9) == Commit(m8, BirthWrite(0, c, 8));
  }

  lemma {:induction false} RunConcat(s: State, xs: seq<Command>, ys: seq<Command>)
    ensures Run(s, xs + ys) == Run(Run(s, xs), ys)
  {
    if ys == [] {
      assert xs + ys == xs;
    } else {
      var before := ys[..|ys| - 1];
      RunConcat(s, xs, before);
      assert (xs + ys)[..|xs + ys| - 1] == xs + before;
    }
  }

  /** The second birth died after its first write. */
  const CUT_SHORT := ONE_BORN.(
    candidates := [ONE_BORN.candidates[0], Candidate(Birthing, Migrating, Some(3), 2, Built(0), 3)],
    files := {Release.Installed(0), Built(0), Built(1)})

  lemma SecondApproval()
    ensures Run(ONE_BORN, [Submit(2, 3), Review(1, Validated), Review(1, Approved)])
      == ONE_BORN.(candidates := [ONE_BORN.candidates[0], Candidate(Approved, NoPhase, None, 2, Built(0), 3)],
          files := {Release.Installed(0), Built(0), Built(1)})
  {
    var a, b, c := Submit(2, 3), Review(1, Validated), Review(1, Approved);
    RunAppends(ONE_BORN, [], a);
    RunAppends(ONE_BORN, [a], b);
    RunAppends(ONE_BORN, [a, b], c);
    assert [a] == [] + [a] && [a, b] == [a] + [b] && [a, b, c] == [a, b] + [c];
  }

  lemma SecondBirth()
    ensures Run(ONE_BORN, [Submit(2, 3), Review(1, Validated), Review(1, Approved), BirthCommand(1, None, 1)])
        == CUT_SHORT
  {
    SecondApproval();
    var s := Run(ONE_BORN, [Submit(2, 3), Review(1, Validated), Review(1, Approved)]);
    RunAppends(ONE_BORN, [Submit(2, 3), Review(1, Validated), Review(1, Approved)], BirthCommand(1, None, 1));
    assert [Submit(2, 3), Review(1, Validated), Review(1, Approved)] + [BirthCommand(1, None, 1)]
        == [Submit(2, 3), Review(1, Validated), Review(1, Approved), BirthCommand(1, None, 1)];
    hide Run, BirthSteps;
    assert s == ONE_BORN.(candidates := [ONE_BORN.candidates[0], Candidate(Approved, NoPhase, None, 2, Built(0), 3)],
                         files := {Release.Installed(0), Built(0), Built(1)});
    assert BirthRefusal(s, 1).None? by { assert 2 in s.generations && s.generations[2].number + 1 == 3; }
    DiesAfterOne(Machine(s, 1, Alive), 1, s.candidates[1], BIRTH_WRITES);
  }

  lemma {:induction false} DiesAfterOne(m: Machine, id: nat, c: Candidate, k: nat)
    requires m.halt.Alive? && m.left == 1 && id < |m.s.candidates| && k >= 2
    ensures BirthSteps(m, id, c, k) == Machine(Do(m.s, BirthWrite(id, c, 0)).value, 0, Died)
  {
    if k == 2 {
      assert BirthSteps(m, id, c, 1) == Commit(BirthSteps(m, id, c, 0), BirthWrite(id, c, 0));
    } else {
      DiesAfterOne(m, id, c, k - 1);
    }
  }

  lemma RollbackOverCutShort(left: nat)
    requires left >= RESTORE_WRITES
    ensures
      var t := Rollback(Machine(CUT_SHORT, RESTORE_WRITES, Alive), 0);
      t.halt.Alive? && Recover(Machine(t.s, left, Alive)).halt == Threw("PRE_SWITCH_RECOVERY_CONFLICT")
  {
    var m := Machine(CUT_SHORT, RESTORE_WRITES, Alive);
    var gens := SetState(SetState(CUT_SHORT.generations, 2, GenRolledBack), 1, GenActive);
    assert forall h :: h != 1 ==> !Active(gens, h);
    RestoreStepsUnfold(m, 0, CUT_SHORT.candidates[0], Release.Installed(0), GenRolledBack);
    var t := Rollback(m, 0);
    hide Rollback;
    StrandedTransition(Machine(t.s, left, Alive), 1, 1);
  }

  /** The first release rolled back again, a second one approved on the base, and the deletion of the first cut
      short. */
  const ROLLED_BACK := State(
    map[1 := Generation(1, 1, None, Release.Installed(0), GenActive),
        2 := Generation(2, 2, Some(1), Built(0), GenRolledBack)],
    [Candidate(RolledBack, Phase.Restored, Some(2), 1, Release.Installed(0), 2)], 1, Release.Installed(0), Some(1),
    map[],
    {Release.Installed(0), Built(0)})

  const APPROVED := ROLLED_BACK.(
    candidates := [ROLLED_BACK.candidates[0], Candidate(Approved, NoPhase, None, 1, Release.Installed(0), 3)],
    files := {Release.Installed(0), Built(0), Built(1)})

  const DELETING := APPROVED.(
    candidates := [ROLLED_BACK.candidates[0].(state := Deleting), APPROVED.candidates[1]],
    intents := map[0 := Intent(1, 2)])

  lemma NothingRun(s: State)
    ensures Run(s, []) == s
  {
  }

  lemma RollsBack()
    ensures Run(ONE_BORN, [RollbackCommand(0, RESTORE_WRITES)]) == ROLLED_BACK
  {
    hide Run, RestoreSteps;
    RunAppends(ONE_BORN, [], RollbackCommand(0, RESTORE_WRITES));
    assert [] + [RollbackCommand(0, RESTORE_WRITES)] == [RollbackCommand(0, RESTORE_WRITES)];
    NothingRun(ONE_BORN);
    var m := Machine(ONE_BORN, RESTORE_WRITES, Alive);
    var gens := SetState(SetState(ONE_BORN.generations, 2, GenRolledBack), 1, GenActive);
    assert gens == ROLLED_BACK.generations;
    RestoreStepsAre(m, 0, ONE_BORN.candidates[0], Release.Installed(0), GenRolledBack, RESTORE_WRITES);
    assert Rollback(m, 0) == RestoreSteps(m, 0, ONE_BORN.candidates[0], Release.Installed(0), GenRolledBack,
        RESTORE_WRITES);
  }

  lemma ApprovesOnBase()
    ensures Run(ROLLED_BACK, [Submit(1, 3), Review(1, Validated), Review(1, Approved)]) == APPROVED
  {
    var a, b, c := Submit(1, 3), Review(1, Validated), Review(1, Approved);
    RunAppends(ROLLED_BACK, [], a);
    RunAppends(ROLLED_BACK, [a], b);
    RunAppends(ROLLED_BACK, [a, b], c);
    assert [a] == [] + [a] && [a, b] == [a] + [b] && [a, b, c] == [a, b] + [c];
  }

  lemma DeletionDies()
    ensures Run(APPROVED, [DeleteCommand(0, 1, 1)]) == DELETING
  {
    RunAppends(APPROVED, [], DeleteCommand(0, 1, 1));
    assert [] + [DeleteCommand(0, 1, 1)] == [DeleteCommand(0, 1, 1)];
    var m := Machine(APPROVED, 1, Alive);
    assert !AnyInTransition(APPROVED) && RestoredToActive(APPROVED);
    var begun := Commit(m, DeletionIntent(0, Intent(1, 2)));
    assert begun.s == DELETING && begun.left == 0;
  }

  lemma DeletingIsOk()
    ensures Inv(DELETING) && AnyUnfinished(DELETING) && BirthRefusal(DELETING, 1).None?
  {
    assert Doomed(DELETING, 0);
    assert CandidateOk(DELETING, 0) && CandidateOk(DELETING, 1);
    assert 2 in DELETING.generations && DELETING.generations[2].number + 1 == 3;
  }

  /** The stuck state is reached: a rolled-back release is half deleted when its successor is born, completely or not,
      and no recovery can succeed any more. */
  lemma StrandedDeletionRun(left: nat, lived: nat, later: nat)
    requires left >= BIRTH_WRITES && lived > 0 && later >= RESTORE_WRITES
    ensures
      var cs := [Submit(1, 2), Review(0, Validated), Review(0, Approved), BirthCommand(0, None, left)]
              + [RollbackCommand(0, RESTORE_WRITES)]
              + [Submit(1, 3), Review(1, Validated), Review(1, Approved)]
              + [DeleteCommand(0, 1, 1)];
      var t := Birth(Machine(Run(FOUNDING, cs), lived, Alive), 1, None);
      Founded(FOUNDING) && Recover(Machine(t.s, later, Alive)).halt.Threw?
  {
    hide Run, Birth, Recover, Inv, AnyUnfinished, BirthRefusal;
    var birth := [Submit(1, 2), Review(0, Validated), Review(0, Approved), BirthCommand(0, None, left)];
    var approval := [Submit(1, 3), Review(1, Validated), Review(1, Approved)];
    RunConcat(FOUNDING, birth, [RollbackCommand(0, RESTORE_WRITES)]);
    RunConcat(FOUNDING, birth + [RollbackCommand(0, RESTORE_WRITES)], approval);
    RunConcat(FOUNDING, birth + [RollbackCommand(0, RESTORE_WRITES)] + approval, [DeleteCommand(0, 1, 1)]);
    FirstBirth(left);
    RollsBack();
    ApprovesOnBase();
    DeletionDies();
    DeletingIsOk();
    BirthStrandsExactlyOverADeletion(Machine(DELETING, lived, Alive), 1, None, later);
  }

  /** The stuck state is reached: a birth dies, the owner rolls the active generation back, and no recovery can succeed
      any more. */
  lemma StrandedRun(left: nat)
    requires left >= BIRTH_WRITES
    ensures
      var cs := [Submit(1, 2), Review(0, Validated), Review(0, Approved), BirthCommand(0, None, left)]
              + [Submit(2, 3), Review(1, Validated), Review(1, Approved), BirthCommand(1, None, 1)];
      var t := Rollback(Machine(Run(FOUNDING, cs), RESTORE_WRITES, Alive), 0);
      Founded(FOUNDING) && t.halt.Alive? && Recover(Machine(t.s, left, Alive)).halt
          == Threw("PRE_SWITCH_RECOVERY_CONFLICT")
  {
    hide Run, Rollback, Recover;
    RunConcat(FOUNDING, [Submit(1, 2), Review(0, Validated), Review(0, Approved), BirthCommand(0, None, left)],
              [Submit(2, 3), Review(1, Validated), Review(1, Approved), BirthCommand(1, None, 1)]);
    FirstBirth(left);
    SecondBirth();
    RollbackOverCutShort(left);
  }
}
