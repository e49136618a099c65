/** The supervisor as it runs: durable writes in sequence, each of which may be the process's last. */
module SupervisorService {
  import opened Wrappers
  import opened ReleaseHistory
  import opened S = Supervisor

  class GenerationSupervisor {
    var generations: Generations
    var candidates: seq<Candidate>
    var pointer: nat
    var release: Release
    var restored: Option<nat>
    var intents: map<nat, Intent>
    var files: set<Release>
    var left: nat
    var halt: Halt

    ghost function Now(): Machine
      reads this
    {
      Machine(State(generations, candidates, pointer, release, restored, intents, files), left, halt)
    }

    /** The process starts over the stores it finds, to live for `writes` of them. */
    constructor (s: State, writes: nat)
      ensures Now() == Machine(s, writes, Alive)
    {
      generations, candidates, pointer, release := s.generations, s.candidates, s.pointer, s.release;
      restored, intents, files, left, halt := s.restored, s.intents, s.files, writes, Alive;
    }

    method Throw(error: string)
      modifies this
      ensures Now() == S.Throw(old(Now()), error)
    {
      if halt.Alive? {
        halt := Threw(error);
      }
    }

    /** One durable write. */
    method Save(w: Write)
      modifies this
      ensures Now() == Commit(old(Now()), w)
    {
      if !halt.Alive? {
        return;
      }
      if left == 0 {
        halt := Died;
        return;
      }
      match w {
        case Row(id, row) =>
          if id < |candidates| { candidates := candidates[id := row]; }
        case NewGeneration(g) =>
          if exists h :: h in generations && (h == g.id || generations[h].number == g.number) {
            halt := Threw("SQLITE_CONSTRAINT_UNIQUE");
            return;
          }
          generations := generations[g.id := g];
        case ActiveRelease(r) => release := r;
        case Pointer(g) => pointer := g;
        case Succession(ended, end, begun) =>
          var saved := generations;
          if ended in generations { generations := generations[ended := generations[ended].(state := end)]; }
          if begun in generations { generations := generations[begun := generations[begun].(state := GenActive)]; }
          if exists h :: h in generations && h != begun && generations[h].state.GenActive? {
            generations := saved;
            halt := Threw("SQLITE_CONSTRAINT_UNIQUE");
            return;
          }
        case FailGeneration(g) =>
          if g in generations { generations := generations[g := generations[g].(state := GenFailed)]; }
        case RestoredEvent(to) => restored := Some(to);
        case DeletionIntent(id, intent) =>
          if id < |candidates| {
            candidates := candidates[id := candidates[id].(state := Deleting)];
            intents := intents[id := intent];
          }
        case RemoveFiles(r) => files := files - {r};
      }
      left := left - 1;
    }

    method Waiting(deleting: bool) returns (found: bool)
      ensures found <==> if deleting then AnyUnfinished(Now().s) else AnyInTransition(Now().s)
    {
      found := false;
      for i := 0 to |candidates|
        invariant found <==>
            exists j :: 0 <= j < i && (if deleting then Unfinished(candidates[j]) else InTransition(candidates[j]))
      {
        if InTransition(candidates[i]) || (deleting && candidates[i].state.Deleting?) {
          found := true;
        }
      }
    }

    method Consistency(g: nat) returns (ok: bool)
      ensures ok <==> Consistent(Now().s, g)
    {
      ok := g in generations && generations[g].state.GenActive? && pointer == g && release == generations[g].release;
    }

    method Birth(id: nat, fail: Option<nat>)
      modifies this
      ensures Now() == S.Birth(old(Now()), id, fail)
    {
      if id >= |candidates| {
        Throw("GENE_CANDIDATE_NOT_FOUND");
        return;
      }
      var c := candidates[id];
      if c.state.Born? {
        return;
      }
      if c.base !in generations || !generations[c.base].state.GenActive?
          || generations[c.base].release != c.baseRelease {
        Throw("CANDIDATE_BASE_CONFLICT");
        return;
      }
      var base := Consistency(c.base);
      if !base {
        Throw("ACTIVE_TRUSTED_RELEASE_CONFLICT");
        return;
      }
      if !c.state.Approved? {
        Throw("OWNER_EXACT_CANDIDATE_APPROVAL_REQUIRED");
        return;
      }
      var pending := Waiting(false);
      if pending {
        Throw("EVOLUTION_RECOVERY_REQUIRED");
        return;
      }
      if !IsNext(generations, c.manifest) {
        Throw("GENOME_GENERATION_NUMBER_CONFLICT");
        return;
      }
      if fail == Some(0) {
        Save(Row(id, c.(state := Failed, phase := Abandoned)));
        return;
      }
      var failed := Publish(id, c, fail);
      if failed {
        Restore(id, GenFailed);
      }
    }

    /** The body of the `try` block; the answer says that it threw. */
    method Publish(id: nat, c: Candidate, fail: Option<nat>) returns (failed: bool)
      requires fail != Some(0)
      modifies this
      ensures failed == fail.Some?
      ensures Now() == BirthSteps(old(Now()), id, c, if fail.Some? && fail.value < BIRTH_WRITES then fail.value
          else BIRTH_WRITES)
    {
      hide Commit;
      ghost var m := Now();
      var n := c.manifest;
      var row := c.(state := Birthing, target := Some(n));
      Save(Row(id, row.(phase := Migrating)));
      assert Now() == BirthSteps(m, id, c, 1);
      if fail == Some(1) { return true; }
      Save(NewGeneration(Generation(n, n, Some(c.base), Built(id), GenBirthing)));
      assert Now() == BirthSteps(m, id, c, 2);
      if fail == Some(2) { return true; }
      Save(Row(id, row.(phase := CandidateSmoke)));
      assert Now() == BirthSteps(m, id, c, 3);
      if fail == Some(3) { return true; }
      Save(Row(id, row.(phase := Switching)));
      assert Now() == BirthSteps(m, id, c, 4);
      if fail == Some(4) { return true; }
      Save(ActiveRelease(Built(id)));
      assert Now() == BirthSteps(m, id, c, 5);
      if fail == Some(5) { return true; }
      Save(Pointer(n));
      assert Now() == BirthSteps(m, id, c, 6);
      if fail == Some(6) { return true; }
      Save(Row(id, row.(phase := Starting)));
      assert Now() == BirthSteps(m, id, c, 7);
      if fail == Some(7) { return true; }
      Save(Succession(c.base, GenRetired, n));
      assert Now() == BirthSteps(m, id, c, 8);
      if fail == Some(8) { return true; }
      Save(Row(id, row.(state := Born, phase := Completed)));
      assert Now() == BirthSteps(m, id, c, 9);
      failed := fail.Some?;
    }

    method Restore(id: nat, end: GenerationState)
      modifies this
      ensures Now() == S.Restore(old(Now()), id, end)
    {
      if !halt.Alive? || id >= |candidates| || candidates[id].target.None? {
        return;
      }
      ghost var m := Now();
      var c := candidates[id];
      if c.base !in generations {
        Throw("GENERATION_NOT_FOUND");
        return;
      }
      var previous := generations[c.base];
      if c.phase.Migrating? || c.phase.CandidateSmoke? {
        if !previous.state.GenActive? || pointer != c.base {
          Throw("PRE_SWITCH_RECOVERY_CONFLICT");
          return;
        }
        Save(FailGeneration(c.target.value));
        assert Now() == AbandonSteps(m, id, c, 1);
        Save(Row(id, c.(state := Failed, phase := Restored)));
        return;
      }
      Save(Row(id, c.(state := RollingBack, phase := Stopping)));
      assert Now() == RestoreSteps(m, id, c, previous.release, end, 1);
      Save(ActiveRelease(previous.release));
      assert Now() == RestoreSteps(m, id, c, previous.release, end, 2);
      Save(Pointer(c.base));
      assert Now() == RestoreSteps(m, id, c, previous.release, end, 3);
      Save(Succession(c.target.value, end, c.base));
      assert Now() == RestoreSteps(m, id, c, previous.release, end, 4);
      Save(Row(id, c.(state := Ending(end), phase := Restored)));
      assert Now() == RestoreSteps(m, id, c, previous.release, end, 5);
      Save(RestoredEvent(c.base));
      assert Now() == RestoreSteps(m, id, c, previous.release, end, 6);
    }

    method Rollback(id: nat)
      modifies this
      ensures Now() == S.Rollback(old(Now()), id)
    {
      if halt.Alive? && id >= |candidates| {
        Throw("GENE_CANDIDATE_NOT_FOUND");
        return;
      }
      if halt.Alive? && candidates[id].state.RolledBack? {
        return;
      }
      RollbackCandidate(id);
    }

    method RollbackCandidate(id: nat)
      modifies this
      ensures Now() == S.RollbackCandidate(old(Now()), id)
    {
      if id >= |candidates| || !candidates[id].state.Born? || candidates[id].target.None?
          || candidates[id].target.value !in generations
         || !generations[candidates[id].target.value].state.GenActive? {
        Throw("GENERATION_NOT_ACTIVE");
        return;
      }
      Restore(id, GenRolledBack);
    }

    /** The lineage's rows, in some order. */
    method ListGenerations() returns (gs: seq<Generation>)
      requires KeyedById(generations)
      ensures ById(gs) == generations
    {
      gs := [];
      var rest := generations.Keys;
      while rest != {}
        invariant rest <= generations.Keys
        invariant ById(gs) == map g | g in generations.Keys - rest :: generations[g]
        decreases rest
      {
        var g :| g in rest;
        rest := rest - {g};
        assert (gs + [generations[g]])[..|gs|] == gs;
        gs := gs + [generations[g]];
      }
    }

    method ListRecords() returns (rs: seq<Record>)
      ensures rs == Records(Now().s)
    {
      rs := [];
      for i := 0 to |candidates|
        invariant |rs| == i && forall j :: 0 <= j < i ==> rs[j] == RecordOf(Now().s, j)
      {
        var c := candidates[i];
        rs := rs + [Record(Built(i), c.state, c.target, c.base, c.baseRelease)];
      }
    }

    method RollbackTo(target: nat, expected: nat)
      requires KeyedById(generations)
      modifies this
      ensures Now() == S.RollbackTo(old(Now()), target, expected)
    {
      if expected !in generations || !generations[expected].state.GenActive? {
        Throw("RELEASE_ACTIVE_CHANGED");
        return;
      }
      var ok := Consistency(expected);
      if !ok {
        Throw("ACTIVE_TRUSTED_RELEASE_CONFLICT");
        return;
      }
      var pending := Waiting(true);
      if pending {
        Throw("EVOLUTION_RECOVERY_REQUIRED");
        return;
      }
      var gs := ListGenerations();
      var rs := ListRecords();
      var plan := RollbackPlan(gs, rs, expected, target);
      if plan.Err? {
        Throw(plan.error);
        return;
      }
      ghost var m := Now();
      var steps := plan.value;
      for k := 0 to |steps|
        invariant Now() == RollbackAll(m, steps[..k])
      {
        assert steps[..k + 1][..k] == steps[..k];
        if steps[k].id.Built? {
          RollbackCandidate(steps[k].id.candidate);
        } else {
          Throw("GENE_CANDIDATE_NOT_FOUND");
        }
      }
      assert steps[..|steps|] == steps;
    }

    method DeleteRelease(id: nat, expected: nat)
      modifies this
      ensures Now() == S.DeleteRelease(old(Now()), id, expected)
    {
      if !halt.Alive? {
        return;
      }
      if id >= |candidates| {
        Throw("GENE_CANDIDATE_NOT_FOUND");
        return;
      }
      var c := candidates[id];
      if c.state.Deleted? {
        return;
      }
      if expected !in generations || !generations[expected].state.GenActive? {
        Throw("RELEASE_ACTIVE_CHANGED");
        return;
      }
      var ok := Consistency(expected);
      if !ok {
        Throw("ACTIVE_TRUSTED_RELEASE_CONFLICT");
        return;
      }
      var pending := Waiting(false);
      if pending {
        Throw("EVOLUTION_RECOVERY_REQUIRED");
        return;
      }
      var intended := c.state.Deleting? && id in intents;
      var number := if intended then intents[id].number
                    else if c.target.Some? && c.target.value in generations then generations[c.target.value].number
                        else c.manifest;
      var afterRollback := restored.Some? && restored.value in generations
          && generations[restored.value].state.GenActive?;
      if !CanDeleteRelease(if c.state.Deleting? then Failed
          else c.state, Built(id), number, generations[expected], afterRollback)
         || (intended && intents[id].active != expected) {
        Throw("RELEASE_DELETE_DENIED");
        return;
      }
      if !intended {
        Save(DeletionIntent(id, Intent(expected, number)));
      }
      Save(RemoveFiles(Built(id)));
      Save(Row(id, c.(state := Deleted)));
    }

    method DeleteNewerReleases(expected: nat)
      modifies this
      ensures Now() == S.DeleteNewerReleases(old(Now()), expected)
    {
      if expected !in generations || !generations[expected].state.GenActive? {
        Throw("RELEASE_ACTIVE_CHANGED");
        return;
      }
      var ok := Consistency(expected);
      if !ok {
        Throw("ACTIVE_TRUSTED_RELEASE_CONFLICT");
        return;
      }
      if restored.None? || restored.value !in generations || !generations[restored.value].state.GenActive? {
        Throw("RELEASE_DELETE_DENIED");
        return;
      }
      ghost var m := Now();
      var records, gens := candidates, generations;
      var i := 0;
      while i < |records|
        invariant i <= |records| && |candidates| == |records|
        invariant S.DeleteNewer(Now(), m.s, expected, i) == S.DeleteNewer(m, m.s, expected, 0)
      {
        var c := records[i];
        var number := if c.target.Some? && c.target.value in gens then gens[c.target.value].number else c.manifest;
        if CanDeleteRelease(c.state, Built(i), number, gens[expected], true) {
          DeleteRelease(i, expected);
        }
        i := i + 1;
      }
    }

    method Recover()
      modifies this
      ensures Now() == S.Recover(old(Now()))
    {
      ghost var m := Now();
      var i := 0;
      while i < |candidates|
        invariant |candidates| == |m.s.candidates| && FinishDeletions(Now(), i) == FinishDeletions(m, 0)
        decreases |candidates| - i
      {
        if halt.Alive? && candidates[i].state.Deleting? {
          if i !in intents {
            Throw("RELEASE_DELETE_INTENT_MISSING");
          } else {
            DeleteRelease(i, intents[i].active);
          }
        }
        i := i + 1;
      }
      ghost var mid := Now();
      i := 0;
      while i < |candidates|
        invariant |candidates| == |mid.s.candidates| && FinishTransitions(Now(), i) == FinishTransitions(mid, 0)
        decreases |candidates| - i
      {
        if halt.Alive? && InTransition(candidates[i]) {
          Restore(i, GenFailed);
        }
        i := i + 1;
      }
    }
  }
}
