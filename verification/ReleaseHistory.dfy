/** The published ancestry of releases, and what may be rolled back or deleted along it
    (supervisor/release_history.ts). */
module ReleaseHistory {
  import opened Wrappers

  datatype GenerationState = GenBirthing | GenActive | GenRetired | GenFailed | GenRolledBack

  /** Code built for a candidate, or installed before the supervisor took over. */
  datatype Release = Built(candidate: nat) | Installed(number: nat)

  /** `parent` is the generation this one was born from; `release` the code it runs. */
  datatype Generation = Generation(id: nat, number: nat, parent: Option<nat>, release: Release, state: GenerationState)

  datatype RecordState = Submitted | Validated | Approved | Birthing | Born | RollingBack | RolledBack | Failed
      | Deleting | Deleted

  datatype Record = Record(id: Release, state: RecordState, target: Option<nat>, baseGeneration: nat,
      baseRelease: Release)

  type Generations = map<nat, Generation>

  /** Later rows of the same identifier replace earlier ones. */
  function ById(gs: seq<Generation>): Generations {
    if gs == [] then map[] else ById(gs[..|gs| - 1])[gs[|gs| - 1].id := gs[|gs| - 1]]
  }

  /** The first record that published a generation with its release. */
  function Publication(rs: seq<Record>, g: Generation): (r: Option<Record>)
    ensures r.Some? ==> r.value in rs && r.value.id == g.release && r.value.target == Some(g.id)
    ensures r.None? ==> forall i :: 0 <= i < |rs| ==> rs[i].id != g.release || rs[i].target != Some(g.id)
  {
    if rs == [] then None
    else if rs[0].id == g.release && rs[0].target == Some(g.id) then Some(rs[0])
    else Publication(rs[1..], g)
  }

  /** The record that takes `g` back to its parent, if the published history has it intact. */
  function Link(gens: Generations, rs: seq<Record>, g: Generation): (r: Option<Record>)
    ensures r.Some? ==> g.parent.Some? && g.parent.value in gens
  {
    if g.parent.None? || g.parent.value !in gens then None
    else
      var previous, release := gens[g.parent.value], Publication(rs, g);
      if release.None? || !release.value.state.Born? || release.value.baseGeneration != previous.id
          || release.value.baseRelease != previous.release
      then None else release
  }

  predicate KeyedById(gens: Generations) {
    forall id :: id in gens ==> gens[id].id == id
  }

  lemma {:induction false} ByIdIsKeyed(gs: seq<Generation>)
    ensures KeyedById(ById(gs))
  {
    if gs != [] {
      ByIdIsKeyed(gs[..|gs| - 1]);
    }
  }

  /** The walk from `current` to `target`; `seen` are the generations passed on the way. */
  function Walk(gens: Generations, rs: seq<Record>, current: nat, target: nat, seen: set<nat>): Result<seq<Record>>
    requires current in gens && KeyedById(gens)
    decreases gens.Keys - seen
  {
    if current == target then Ok([])
    else if current in seen || gens[current].parent.None? then Err("ROLLBACK_TARGET_NOT_ANCESTOR")
    else
      var link := Link(gens, rs, gens[current]);
      if link.None? then Err("ROLLBACK_HISTORY_UNAVAILABLE")
      else
        assert current in gens.Keys - seen && current !in gens.Keys - (seen + {current});
        var rest := Walk(gens, rs, gens[current].parent.value, target, seen + {current});
        if rest.Err? then rest else Ok([link.value] + rest.value)
  }

  predicate Admissible(gens: Generations, active: nat, target: nat) {
    active in gens && target in gens && gens[target].number < gens[active].number && !gens[target].state.GenFailed?
  }

  function Plan(gens: Generations, rs: seq<Record>, active: nat, target: nat): Result<seq<Record>>
    requires KeyedById(gens)
  {
    if !Admissible(gens, active, target) then Err("ROLLBACK_TARGET_INVALID") else Walk(gens, rs, active, target, {})
  }

  /** The same walk as a loop over mutable state. */
  method RollbackPlan(gs: seq<Generation>, rs: seq<Record>, active: nat, target: nat) returns (r: Result<seq<Record>>)
    ensures KeyedById(ById(gs)) && r == Plan(ById(gs), rs, active, target)
  {
    var byId: Generations := map[];
    for i := 0 to |gs|
      invariant byId == ById(gs[..i])
    {
      assert gs[..i + 1][..i] == gs[..i];
      byId := byId[gs[i].id := gs[i]];
    }
    assert gs[..|gs|] == gs;
    ByIdIsKeyed(gs);
    if active !in byId || target !in byId || byId[target].number >= byId[active].number
        || byId[target].state.GenFailed? {
      return Err("ROLLBACK_TARGET_INVALID");
    }
    var steps: seq<Record>, seen: set<nat>, current := [], {}, byId[active];
    assert Joined([], Walk(byId, rs, active, target, {})) == Walk(byId, rs, active, target, {}) by {
      assert forall rest: seq<Record> :: [] + rest == rest;
    }
    while current.id != target
      invariant current.id in byId && byId[current.id] == current
      invariant Walk(byId, rs, active, target, {}) == Joined(steps, Walk(byId, rs, current.id, target, seen))
      decreases byId.Keys - seen
    {
      if current.id in seen || current.parent.None? {
        return Err("ROLLBACK_TARGET_NOT_ANCESTOR");
      }
      assert current.id in byId.Keys - seen;
      seen := seen + {current.id};
      if current.parent.value !in byId {
        return Err("ROLLBACK_HISTORY_UNAVAILABLE");
      }
      var previous := byId[current.parent.value];
      var release := Find(rs, current);
      if release.None? || !release.value.state.Born? || release.value.baseGeneration != previous.id
          || release.value.baseRelease != previous.release {
        return Err("ROLLBACK_HISTORY_UNAVAILABLE");
      }
      JoinedStep(steps, release.value, Walk(byId, rs, previous.id, target, seen));
      steps := steps + [release.value];
      current := previous;
    }
    assert steps + [] == steps;
    r := Ok(steps);
  }

  function Joined(steps: seq<Record>, rest: Result<seq<Record>>): Result<seq<Record>> {
    if rest.Err? then rest else Ok(steps + rest.value)
  }

  lemma JoinedStep(steps: seq<Record>, r: Record, rest: Result<seq<Record>>)
    ensures Joined(steps, if rest.Err? then rest else Ok([r] + rest.value)) == Joined(steps + [r], rest)
  {
    if rest.Ok? {
      assert steps + ([r] + rest.value) == steps + [r] + rest.value;
    }
  }

  method Find(rs: seq<Record>, g: Generation) returns (r: Option<Record>)
    ensures r == Publication(rs, g)
  {
    var i := 0;
    while i < |rs|
      invariant i <= |rs| && Publication(rs, g) == Publication(rs[i..], g)
    {
      if rs[i].id == g.release && rs[i].target == Some(g.id) {
        return Some(rs[i]);
      }
      i := i + 1;
    }
    r := None;
  }

  // ---- The plan is the published parent path ----

  /** `steps` are the published records from `current` to the first occurrence of `target` among its ancestors. */
  ghost predicate Path(gens: Generations, rs: seq<Record>, current: nat, steps: seq<Record>, target: nat)
    decreases |steps|
  {
    current in gens && KeyedById(gens) &&
    if steps == [] then current == target
    else
      && current != target && Link(gens, rs, gens[current]) == Some(steps[0])
      && Path(gens, rs, gens[current].parent.value, steps[1..], target)
  }

  lemma {:induction false} PathIsUnique(gens: Generations, rs: seq<Record>, current: nat, xs: seq<Record>,
      ys: seq<Record>, target: nat)
    requires Path(gens, rs, current, xs, target) && Path(gens, rs, current, ys, target)
    ensures xs == ys
    decreases |xs|
  {
    if xs != [] && ys != [] {
      PathIsUnique(gens, rs, gens[current].parent.value, xs[1..], ys[1..], target);
      assert xs == [xs[0]] + xs[1..] && ys == [ys[0]] + ys[1..];
    }
  }

  lemma {:induction false} WalkIsPath(gens: Generations, rs: seq<Record>, current: nat, target: nat, seen: set<nat>)
    requires current in gens && KeyedById(gens) && Walk(gens, rs, current, target, seen).Ok?
    ensures Path(gens, rs, current, Walk(gens, rs, current, target, seen).value, target)
    decreases gens.Keys - seen
  {
    if current != target {
      assert current in gens.Keys - seen && current !in gens.Keys - (seen + {current});
      WalkIsPath(gens, rs, gens[current].parent.value, target, seen + {current});
    }
  }

  /** A generation already passed is farther from the target, so the cycle check cannot cut a path short. */
  ghost predicate Passed(gens: Generations, rs: seq<Record>, seen: set<nat>, steps: seq<Record>, target: nat) {
    forall x :: x in seen ==> exists longer :: |longer| > |steps| && Path(gens, rs, x, longer, target)
  }

  lemma {:induction false} PathIsWalked(gens: Generations, rs: seq<Record>, current: nat, steps: seq<Record>,
      target: nat, seen: set<nat>)
    requires Path(gens, rs, current, steps, target) && Passed(gens, rs, seen, steps, target)
    ensures Walk(gens, rs, current, target, seen) == Ok(steps)
    decreases |steps|
  {
    if steps != [] {
      if current in seen {
        var longer :| |longer| > |steps| && Path(gens, rs, current, longer, target);
        PathIsUnique(gens, rs, current, steps, longer, target);
      }
      PathIsWalked(gens, rs, gens[current].parent.value, steps[1..], target, seen + {current});
      assert steps == [steps[0]] + steps[1..];
    }
  }

  /** The plan succeeds with exactly the published parent path from the active generation to an admissible target,
      whatever the rows are. */
  lemma PlanIsExactlyThePath(gens: Generations, rs: seq<Record>, active: nat, target: nat, steps: seq<Record>)
    requires KeyedById(gens)
    ensures Plan(gens, rs, active, target) == Ok(steps) <==>
        Admissible(gens, active, target) && Path(gens, rs, active, steps, target)
  {
    if Admissible(gens, active, target) {
      if Walk(gens, rs, active, target, {}).Ok? {
        WalkIsPath(gens, rs, active, target, {});
      }
      if Path(gens, rs, active, steps, target) {
        PathIsWalked(gens, rs, active, steps, target, {});
      }
    }
  }

  // ---- Numbers decrease along the ancestry ----

  ghost predicate Ascending(gens: Generations) {
    forall id :: id in gens && gens[id].parent.Some? && gens[id].parent.value in gens ==>
        gens[gens[id].parent.value].number < gens[id].number
  }

  /** The walk without its cycle check: in an ascending lineage the number alone bounds it. */
  ghost function Descend(gens: Generations, rs: seq<Record>, current: nat, target: nat): Result<seq<Record>>
    requires current in gens && KeyedById(gens) && Ascending(gens)
    decreases gens[current].number
  {
    if current == target then Ok([])
    else if gens[current].parent.None? then Err("ROLLBACK_TARGET_NOT_ANCESTOR")
    else
      var link := Link(gens, rs, gens[current]);
      if link.None? then Err("ROLLBACK_HISTORY_UNAVAILABLE")
      else
        var rest := Descend(gens, rs, gens[current].parent.value, target);
        if rest.Err? then rest else Ok([link.value] + rest.value)
  }

  lemma {:induction false} CycleCheckNeverFires(gens: Generations, rs: seq<Record>, current: nat, target: nat,
      seen: set<nat>)
    requires current in gens && KeyedById(gens) && Ascending(gens)
    requires forall x :: x in seen ==> x in gens && gens[x].number > gens[current].number
    ensures Walk(gens, rs, current, target, seen) == Descend(gens, rs, current, target)
    decreases gens[current].number
  {
    if current != target && Link(gens, rs, gens[current]).Some? {
      CycleCheckNeverFires(gens, rs, gens[current].parent.value, target, seen + {current});
    }
  }

  /** Every generation passed on a path is newer than the target. */
  lemma {:induction false} PathDescends(gens: Generations, rs: seq<Record>, current: nat, steps: seq<Record>,
      target: nat, i: nat)
    requires Path(gens, rs, current, steps, target) && Ascending(gens) && i < |steps|
    ensures target in gens && steps[i].target.Some? && steps[i].target.value in gens
    ensures gens[target].number < gens[steps[i].target.value].number <= gens[current].number
    decreases |steps|
  {
    if |steps| > 1 {
      PathDescends(gens, rs, gens[current].parent.value, steps[1..], target, if i == 0 then 0 else i - 1);
    } else {
      assert steps[1..] == [];
    }
  }

  // ---- Deletion ----

  predicate Deletable(state: RecordState) {
    state.Submitted? || state.Validated? || state.Approved? || state.Born? || state.RolledBack? || state.Failed?
  }

  function CanDeleteRelease(state: RecordState, release: Release, number: int, active: Generation,
      afterRollback: bool): bool {
    afterRollback && release != active.release && number > active.number && Deletable(state)
  }
}
