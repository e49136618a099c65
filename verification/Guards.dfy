/** When a rollback or a deletion is admitted, and that a refused one writes nothing
    (supervisor/generation_supervisor.ts), said of the rows and the three stores. */
module Guards {
  import opened ReleaseHistory
  import opened Supervisor

  predicate Runs(s: State, g: nat) {
    g in s.generations && s.generations[g].state.GenActive?
  }

  /** The pointer and the release name the generation too. */
  predicate Settled(s: State, g: nat) {
    Runs(s, g) && s.pointer == g && s.release == s.generations[g].release
  }

  ghost predicate Moving(s: State) {
    exists i :: 0 <= i < |s.candidates| && (s.candidates[i].state.Birthing? || s.candidates[i].state.RollingBack?)
  }

  ghost predicate BeingDeleted(s: State) {
    exists i :: 0 <= i < |s.candidates| && s.candidates[i].state.Deleting?
  }

  /** The operation wrote nothing and threw this. */
  predicate Refused(m: Machine, t: Machine, error: string) {
    t == m.(halt := Threw(error))
  }

  /** A rollback to an ancestor starts only from the generation the owner saw, named by all stores, with nothing being
      born, rolled back or deleted. */
  lemma RollbackToIsGuarded(m: Machine, target: nat, expected: nat)
    requires m.halt.Alive?
    ensures
      var s, t := m.s, RollbackTo(m, target, expected);
      && (!Runs(s, expected) ==> Refused(m, t, "RELEASE_ACTIVE_CHANGED"))
      && (Runs(s, expected) && !Settled(s, expected) ==> Refused(m, t, "ACTIVE_TRUSTED_RELEASE_CONFLICT"))
      && (Settled(s, expected) && (Moving(s) || BeingDeleted(s)) ==> Refused(m, t, "EVOLUTION_RECOVERY_REQUIRED"))
  {
    hide RollbackAll, Plan;
    assert AnyUnfinished(m.s) <==> Moving(m.s) || BeingDeleted(m.s) by {
      if i :| 0 <= i < |m.s.candidates| && m.s.candidates[i].state.Deleting? { assert Unfinished(m.s.candidates[i]); }
      if i :| 0 <= i < |m.s.candidates| && (m.s.candidates[i].state.Birthing? || m.s.candidates[i].state.RollingBack?) {
        assert Unfinished(m.s.candidates[i]);
      }
    }
  }

  /** The owner's rollback of one candidate: nothing for one rolled back already, and for any other only if it is the
      published candidate of the generation that runs. */
  lemma RollbackIsGuarded(m: Machine, id: nat)
    requires m.halt.Alive?
    ensures
      var s, t := m.s, Rollback(m, id);
      if id >= |s.candidates| then Refused(m, t, "GENE_CANDIDATE_NOT_FOUND")
      else
        var c := s.candidates[id];
        if c.state.RolledBack? then t == m
        else if c.state.Born? && c.target.Some? && Runs(s, c.target.value) then t == Restore(m, id, GenRolledBack)
        else Refused(m, t, "GENERATION_NOT_ACTIVE")
  {
    hide Restore;
  }

  /** The number of a release: that of its deletion once it has begun, that of its generation, or the one it claims. */
  function Version(s: State, id: nat): nat
    requires id < |s.candidates|
  {
    var c := s.candidates[id];
    if c.state.Deleting? && id in s.intents then s.intents[id].number
    else if c.target.Some? && c.target.value in s.generations then s.generations[c.target.value].number
    else c.manifest
  }

  /** Only after a rollback to the generation that runs, and only a release above it that has come to rest, or one whose
      deletion was begun under the same generation. */
  predicate MayDelete(s: State, id: nat, active: nat)
    requires id < |s.candidates| && active in s.generations
  {
    var c := s.candidates[id];
    && s.restored.Some? && Runs(s, s.restored.value)
    && s.generations[active].release != Built(id) && Version(s, id) > s.generations[active].number
    && !c.state.Birthing? && !c.state.RollingBack? && !c.state.Deleted?
    && (c.state.Deleting? && id in s.intents ==> s.intents[id].active == active)
  }

  /** What the checks of a deletion come to, nothing moving. */
  lemma DeletableExactly(s: State, id: nat, active: nat)
    requires id < |s.candidates| && active in s.generations && !s.candidates[id].state.Deleted? && !Moving(s)
    ensures
      var c := s.candidates[id];
      var intended := c.state.Deleting? && id in s.intents;
      var number := if intended then s.intents[id].number else VersionOf(s, c);
      MayDelete(s, id, active) <==>
        && CanDeleteRelease(if c.state.Deleting? then Failed else c.state, Built(id), number, s.generations[active],
            RestoredToActive(s))
        && !(intended && s.intents[id].active != active)
  {
  }

  /** The deletion of one release: nothing if it is deleted already; refused, with nothing written, unless it is
      allowed; else, if the process lives, its code is gone and its row says so, and no other row has changed. */
  lemma DeletionIsGuarded(m: Machine, id: nat, expected: nat)
    requires m.halt.Alive?
    ensures
      var s, t := m.s, DeleteRelease(m, id, expected);
      if id >= |s.candidates| then Refused(m, t, "GENE_CANDIDATE_NOT_FOUND")
      else if s.candidates[id].state.Deleted? then t == m
      else if !Runs(s, expected) then Refused(m, t, "RELEASE_ACTIVE_CHANGED")
      else if !Settled(s, expected) then Refused(m, t, "ACTIVE_TRUSTED_RELEASE_CONFLICT")
      else if Moving(s) then Refused(m, t, "EVOLUTION_RECOVERY_REQUIRED")
      else if !MayDelete(s, id, expected) then Refused(m, t, "RELEASE_DELETE_DENIED")
      else
        && !t.halt.Threw?
        && t.s == s.(candidates := t.s.candidates, intents := t.s.intents, files := t.s.files)
        && |t.s.candidates| == |s.candidates|
        && (forall i :: 0 <= i < |s.candidates| && i != id ==> t.s.candidates[i] == s.candidates[i])
        && (t.halt.Alive? ==>
              && t.s.candidates[id] == s.candidates[id].(state := RecordState.Deleted)
              && t.s.files == s.files - {Built(id)})
  {
    hide MayDelete, CanDeleteRelease, VersionOf, RestoredToActive;
    if id < |m.s.candidates| && !m.s.candidates[id].state.Deleted? && Runs(m.s, expected) && !Moving(m.s) {
      DeletableExactly(m.s, id, expected);
    }
    assert AnyInTransition(m.s) <==> Moving(m.s) by {
      if i :| 0 <= i < |m.s.candidates| && (m.s.candidates[i].state.Birthing? || m.s.candidates[i].state.RollingBack?) {
        assert InTransition(m.s.candidates[i]);
      }
    }
  }

  /** All newer releases are deleted at once only from the generation the owner saw and a rollback ended at. */
  lemma CleanupIsGuarded(m: Machine, expected: nat)
    requires m.halt.Alive?
    ensures
      var s, t := m.s, DeleteNewerReleases(m, expected);
      && (!Runs(s, expected) ==> Refused(m, t, "RELEASE_ACTIVE_CHANGED"))
      && (Runs(s, expected) && !Settled(s, expected) ==> Refused(m, t, "ACTIVE_TRUSTED_RELEASE_CONFLICT"))
      && (Settled(s, expected) && !(s.restored.Some? && Runs(s, s.restored.value)) ==>
            Refused(m, t, "RELEASE_DELETE_DENIED"))
  {
    hide DeleteNewer;
  }
}
