/** The migration as it runs: rows are inserted into the next store one by one, and the copied candidates are remembered
    in a set. */
module MigrationService {
  import opened Wrappers
  import opened M = Migration

  class CurrentStore {
    const interfaceVersion: nat
    var working: seq<Working>
    var objectives: seq<Objective>
    var needs: seq<Need>
    var candidates: seq<Candidate>
    var skills: seq<Skill>

    ghost function Content(): Store
      reads this
    {
      Store(interfaceVersion, working, objectives, needs, candidates, skills)
    }

    constructor (version: nat)
      ensures Content() == Store(version, [], [], [], [], [])
    {
      interfaceVersion, working, objectives, needs, candidates, skills := version, [], [], [], [], [];
    }
  }

  /** One migration: where the rows come from, where they go, and which candidates were copied. */
  class CurrentMigration {
    const former: CurrentStore
    const next: CurrentStore
    var copied: set<nat>

    constructor (former: CurrentStore, next: CurrentStore)
      ensures this.former == former && this.next == next && copied == {}
    {
      this.former, this.next, copied := former, next, {};
    }

    method Lookup(id: nat) returns (r: Option<Candidate>)
      ensures r == Find(former.candidates, id)
    {
      var i := 0;
      while i < |former.candidates|
        invariant i <= |former.candidates| && Find(former.candidates, id) == Find(former.candidates[i..], id)
      {
        if former.candidates[i].id == id {
          return Some(former.candidates[i]);
        }
        i := i + 1;
      }
      r := None;
    }

    /** Copies a candidate after its predecessors. `path` holds the calls under way. */
    method CopyCandidate(id: nat, path: set<nat>) returns (error: Option<string>)
      requires former != next && copied == Ids(next.candidates)
      modifies this`copied, next`candidates
      ensures match Copy(former.candidates, next.needs, old(next.candidates), id, path)
              case Ok(rows) => error.None? && next.candidates == rows && copied == Ids(rows)
              case Err(e) => error == Some(e)
      decreases Ids(former.candidates) - path
    {
      if id in copied {
        return None;
      }
      var r := Lookup(id);
      if r.None? || !(r.value.state.CandidateActive? || r.value.state.CandidateRetired?) {
        return Some("MIGRATION_SKILL_CANDIDATE_INVALID");
      }
      if id in path {
        return Some("RangeError");
      }
      assert id in Ids(former.candidates) - path && id !in Ids(former.candidates) - (path + {id});
      if r.value.previous.Some? {
        error := CopyCandidate(r.value.previous.value, path + {id});
        if error.Some? {
          return;
        }
      }
      var row := r.value;
      if row.need.Some? && !HasNeed(next.needs, row.need.value) {
        row := row.(need := None);
      }
      ghost var before := next.candidates;
      next.candidates := next.candidates + [row];
      copied := copied + {id};
      assert Ids(before + [row]) == Ids(before) + {id} by {
        assert (before + [row])[|before|].id == id;
      }
      error := None;
    }

    /** The body of the transaction; the rows of a failed one are put back by the caller. */
    method CopyRows() returns (error: Option<string>)
      requires former != next && copied == {} && next.Content() == Store(next.interfaceVersion, [], [], [], [], [])
      modifies this`copied, next
      ensures match Migrate(former.Content(), next.interfaceVersion)
              case Ok(t) => error.None? && next.Content() == t
              case Err(e) => error == Some(e)
    {
      var compatible := former.interfaceVersion == next.interfaceVersion;
      var content := Store(former.interfaceVersion, former.working, former.objectives, former.needs, former.candidates,
          former.skills);
      CopyWorking();
      CopyObjectives();
      for i := 0 to |former.needs|
        invariant next.needs == CarriedNeeds(content, former.needs[..i], compatible) && former.Content() == content
        invariant next.working == CarriedWorking(former.working)
            && next.objectives == CarriedObjectives(former.objectives)
        invariant next.candidates == [] && next.skills == [] && copied == {}
      {
        assert former.needs[..i + 1][..i] == former.needs[..i];
        var n := former.needs[i];
        if Kept(content, n) {
          next.needs := next.needs + [n.(state := if compatible && n.state.NeedSatisfied? then NeedSatisfied
              else NeedOpen, carryForward := true)];
        }
      }
      assert former.needs[..|former.needs|] == former.needs;
      error := CopySkills(content);
    }

    method CopyWorking()
      requires former != next && next.working == []
      modifies next`working
      ensures next.working == CarriedWorking(former.working)
    {
      for i := 0 to |former.working|
        invariant next.working == CarriedWorking(former.working[..i])
      {
        assert former.working[..i + 1][..i] == former.working[..i];
        if former.working[i].carryForward {
          next.working := next.working + [former.working[i]];
        }
      }
      assert former.working[..|former.working|] == former.working;
    }

    method CopyObjectives()
      requires former != next && next.objectives == []
      modifies next`objectives
      ensures next.objectives == CarriedObjectives(former.objectives)
    {
      for i := 0 to |former.objectives|
        invariant next.objectives == CarriedObjectives(former.objectives[..i])
      {
        assert former.objectives[..i + 1][..i] == former.objectives[..i];
        if former.objectives[i].carryForward && former.objectives[i].open {
          next.objectives := next.objectives + [former.objectives[i]];
        }
      }
      assert former.objectives[..|former.objectives|] == former.objectives;
    }

    method CopySkills(ghost content: Store) returns (error: Option<string>)
      requires former != next && copied == {} && next.candidates == [] && next.skills == []
          && content == former.Content()
      modifies this`copied, next`candidates, next`skills
      ensures match CopyAll(content, next.needs, former.skills)
              case Ok(rows) =>
                error.None? && next.candidates == rows
                && next.skills == CarriedSkills(former.skills, former.interfaceVersion
                    == next.interfaceVersion, next.interfaceVersion)
              case Err(e) => error == Some(e)
    {
      var compatible := former.interfaceVersion == next.interfaceVersion;
      for i := 0 to |former.skills|
        invariant CopyAll(content, next.needs, former.skills[..i]) == Ok(next.candidates)
            && copied == Ids(next.candidates)
        invariant next.skills == CarriedSkills(former.skills[..i], compatible, next.interfaceVersion)
      {
        assert former.skills[..i + 1][..i] == former.skills[..i];
        var s := former.skills[i];
        if s.state.SkillActive? {
          if s.active.Some? {
            error := CopyCandidate(s.active.value, {});
            if error.Some? {
              StaysRefused(content, next.needs, former.skills, i + 1);
              return;
            }
          }
          next.skills := next.skills + [s.(state := if compatible && s.interfaceVersion == next.interfaceVersion
              then SkillActive else SkillRevalidation, runs := 0)];
        }
      }
      assert former.skills[..|former.skills|] == former.skills;
      error := None;
    }

    lemma {:induction false} StaysRefused(content: Store, needs: seq<Need>, skills: seq<Skill>, i: nat)
      requires i <= |skills| && CopyAll(content, needs, skills[..i]).Err?
      ensures CopyAll(content, needs, skills) == CopyAll(content, needs, skills[..i])
      decreases |skills| - i
    {
      if i == |skills| {
        assert skills[..i] == skills;
      } else {
        assert skills[..i + 1][..i] == skills[..i];
        StaysRefused(content, needs, skills, i + 1);
      }
    }

    method MigrateCurrentState() returns (error: Option<string>)
      requires former != next && copied == {} && next.Content() == Store(next.interfaceVersion, [], [], [], [], [])
      modifies this`copied, next
      ensures match Migrate(former.Content(), next.interfaceVersion)
              case Ok(t) => error.None? && next.Content() == t
              case Err(e) => error == Some(e) && next.Content() == old(next.Content())
    {
      error := CopyRows();
      if error.Some? {
        next.working, next.objectives, next.needs, next.candidates, next.skills := [], [], [], [], [];
      }
    }
  }
}
