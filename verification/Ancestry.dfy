/** Where a rollback may go (supervisor/release_history.ts), said of the generations and records themselves: back along
    the parents, each birth on record with the base it really had. */
module Ancestry {
  import opened Wrappers
  import opened ReleaseHistory

  predicate Published(r: Record, g: Generation) {
    r.id == g.release && r.target == Some(g.id)
  }

  /** `r` is the first record that published `g`. */
  ghost predicate Publishes(rs: seq<Record>, r: Record, g: Generation) {
    exists i :: 0 <= i < |rs| && rs[i] == r && Published(r, g) && forall j :: 0 <= j < i ==> !Published(rs[j], g)
  }

  /** The birth of a generation from its parent is on record, complete, and with the parent's own release as its
      base. */
  ghost predicate Intact(gens: Generations, rs: seq<Record>, r: Record, id: nat) {
    && id in gens && gens[id].parent.Some? && gens[id].parent.value in gens
    && Publishes(rs, r, gens[id]) && r.state.Born?
    && r.baseGeneration == gens[id].parent.value && r.baseRelease == gens[gens[id].parent.value].release
  }

  /** Generations from the first to the last, each born from the next, and the records of their births. */
  ghost predicate Descent(gens: Generations, rs: seq<Record>, nodes: seq<nat>, steps: seq<Record>) {
    && |nodes| == |steps| + 1 && nodes[|steps|] in gens
    && forall i :: 0 <= i < |steps| ==>
        Intact(gens, rs, steps[i], nodes[i]) && gens[nodes[i]].parent == Some(nodes[i + 1])
  }

  /** What a rollback from `active` to `target` takes back. */
  ghost predicate Reaches(gens: Generations, rs: seq<Record>, active: nat, target: nat, nodes: seq<nat>,
      steps: seq<Record>)
  {
    && Descent(gens, rs, nodes, steps) && steps != [] && nodes[0] == active && nodes[|steps|] == target
    && !gens[target].state.GenFailed?
  }

  /** The ancestry of `active` as far as it is intact, none of it the target. */
  ghost predicate Misses(gens: Generations, rs: seq<Record>, active: nat, target: nat, nodes: seq<nat>,
      steps: seq<Record>)
  {
    Descent(gens, rs, nodes, steps) && nodes[0] == active && target !in nodes
  }

  /** It ends at a generation born from none. */
  ghost predicate EndsAtRoot(gens: Generations, rs: seq<Record>, active: nat, target: nat) {
    exists nodes, steps :: Misses(gens, rs, active, target, nodes, steps) && gens[nodes[|steps|]].parent.None?
  }

  /** It breaks off at a generation whose birth is not on record. */
  ghost predicate BreaksOff(gens: Generations, rs: seq<Record>, active: nat, target: nat) {
    exists nodes, steps :: Misses(gens, rs, active, target, nodes, steps) && gens[nodes[|steps|]].parent.Some?
      && forall r :: !Intact(gens, rs, r, nodes[|steps|])
  }

  lemma {:induction false} PublicationIsFirst(rs: seq<Record>, g: Generation, r: Record)
    ensures Publication(rs, g) == Some(r) <==> Publishes(rs, r, g)
  {
    if rs != [] {
      PublicationIsFirst(rs[1..], g, r);
      if Published(rs[0], g) {
        assert Publishes(rs, rs[0], g);
      } else {
        if Publishes(rs[1..], r, g) {
          var i :| 0 <= i < |rs[1..]| && rs[1..][i] == r && forall j :: 0 <= j < i ==> !Published(rs[1..][j], g);
          forall j | 0 <= j < i + 1 ensures !Published(rs[j], g) {
            if j > 0 { assert rs[j] == rs[1..][j - 1]; }
          }
          assert rs[i + 1] == r;
        }
        if Publishes(rs, r, g) {
          var i :| 0 <= i < |rs| && rs[i] == r && Published(r, g) && forall j :: 0 <= j < i ==> !Published(rs[j], g);
          assert rs[1..][i - 1] == r;
          forall j | 0 <= j < i - 1 ensures !Published(rs[1..][j], g) { assert rs[1..][j] == rs[j + 1]; }
        }
      }
    }
  }

  lemma LinkIsIntact(gens: Generations, rs: seq<Record>, id: nat, r: Record)
    requires id in gens && KeyedById(gens)
    ensures Link(gens, rs, gens[id]) == Some(r) <==> Intact(gens, rs, r, id)
  {
    hide Publication, Publishes;
    PublicationIsFirst(rs, gens[id], r);
    var p := Publication(rs, gens[id]);
    if p.Some? { PublicationIsFirst(rs, gens[id], p.value); }
  }

  lemma TailDescends(gens: Generations, rs: seq<Record>, nodes: seq<nat>, steps: seq<Record>)
    requires Descent(gens, rs, nodes, steps) && steps != []
    ensures Descent(gens, rs, nodes[1..], steps[1..]) && nodes[1..][0] == nodes[1] && nodes[1] in gens
    ensures gens[nodes[0]].parent == Some(nodes[1]) && Intact(gens, rs, steps[0], nodes[0])
  {
    hide Publishes;
    forall i | 0 <= i < |steps[1..]| ensures Intact(gens, rs, steps[1..][i], nodes[1..][i])
      && gens[nodes[1..][i]].parent == Some(nodes[1..][i + 1]) {
      assert Intact(gens, rs, steps[i + 1], nodes[i + 1]);
    }
    if |steps| > 1 { InGens(gens, rs, steps[1], nodes[1]); }
  }

  lemma InGens(gens: Generations, rs: seq<Record>, r: Record, id: nat)
    requires Intact(gens, rs, r, id)
    ensures id in gens
  {
  }

  lemma HeadDescends(gens: Generations, rs: seq<Record>, id: nat, r: Record, nodes: seq<nat>, steps: seq<Record>)
    requires Intact(gens, rs, r, id) && Descent(gens, rs, nodes, steps) && gens[id].parent == Some(nodes[0])
    ensures Descent(gens, rs, [id] + nodes, [r] + steps)
  {
    hide Publishes;
    InGens(gens, rs, r, id);
    forall i | 0 <= i < |[r] + steps| ensures Intact(gens, rs, ([r] + steps)[i], ([id] + nodes)[i])
      && gens[([id] + nodes)[i]].parent == Some(([id] + nodes)[i + 1]) {
      if i > 0 { InGens(gens, rs, steps[i - 1], nodes[i - 1]); }
    }
  }

  /** Numbers fall along a descent, so it never returns. */
  lemma {:induction false} Falls(gens: Generations, rs: seq<Record>, nodes: seq<nat>, steps: seq<Record>, i: nat,
      j: nat)
    requires Descent(gens, rs, nodes, steps) && Ascending(gens) && i < j <= |steps|
    ensures nodes[i] in gens && nodes[j] in gens && gens[nodes[j]].number < gens[nodes[i]].number
  {
    hide Publishes;
    assert Intact(gens, rs, steps[j - 1], nodes[j - 1]);
    if i < j - 1 { Falls(gens, rs, nodes, steps, i, j - 1); }
  }

  /** The walk goes down every descent that has not met the target. */
  lemma {:induction false} DescendFollows(gens: Generations, rs: seq<Record>, nodes: seq<nat>, steps: seq<Record>,
      target: nat)
    requires KeyedById(gens) && Ascending(gens) && Descent(gens, rs, nodes, steps)
    requires forall i :: 0 <= i < |steps| ==> nodes[i] != target
    ensures nodes[0] in gens
    ensures
      var rest := Descend(gens, rs, nodes[|steps|], target);
      Descend(gens, rs, nodes[0], target) == if rest.Err? then rest else Ok(steps + rest.value)
    decreases |steps|
  {
    hide Intact;
    if steps == [] {
      var rest := Descend(gens, rs, nodes[0], target);
      assert rest.Ok? ==> steps + rest.value == rest.value;
    } else {
      TailDescends(gens, rs, nodes, steps);
      InGens(gens, rs, steps[0], nodes[0]);
      LinkIsIntact(gens, rs, nodes[0], steps[0]);
      DescendFollows(gens, rs, nodes[1..], steps[1..], target);
      var rest := Descend(gens, rs, nodes[|steps|], target);
      assert rest.Ok? ==> [steps[0]] + (steps[1..] + rest.value) == steps + rest.value;
    }
  }

  /** Whatever the walk answers, it went down a descent to say so. */
  lemma {:induction false} DescendWitness(gens: Generations, rs: seq<Record>, current: nat, target: nat)
      returns (nodes: seq<nat>, steps: seq<Record>)
    requires current in gens && KeyedById(gens) && Ascending(gens)
    ensures Descent(gens, rs, nodes, steps) && nodes[0] == current
    ensures forall i :: 0 <= i < |steps| ==> nodes[i] != target
    ensures
      var r, last := Descend(gens, rs, current, target), nodes[|steps|];
      && (r.Ok? ==> r.value == steps && last == target)
      && (r.Err? ==> last != target)
      && (r.Err? ==> r == Err(if gens[last].parent.None? then "ROLLBACK_TARGET_NOT_ANCESTOR"
            else "ROLLBACK_HISTORY_UNAVAILABLE"))
      && (r.Err? && gens[last].parent.Some? ==> forall x :: !Intact(gens, rs, x, last))
    decreases gens[current].number
  {
    hide Intact;
    var link := if current == target || gens[current].parent.None? then None else Link(gens, rs, gens[current]);
    forall x ensures Link(gens, rs, gens[current]) == Some(x) <==> Intact(gens, rs, x, current) {
      LinkIsIntact(gens, rs, current, x);
    }
    if link.None? {
      nodes, steps := [current], [];
    } else {
      var ns, ss := DescendWitness(gens, rs, gens[current].parent.value, target);
      HeadDescends(gens, rs, current, link.value, ns, ss);
      nodes, steps := [current] + ns, [link.value] + ss;
      assert nodes[|steps|] == ns[|ss|];
      forall i | 0 <= i < |steps| ensures nodes[i] != target {
        if i > 0 { assert nodes[i] == ns[i - 1]; }
      }
    }
  }

  /** The walk succeeds exactly along a descent to the target. */
  lemma DescendExactly(gens: Generations, rs: seq<Record>, active: nat, target: nat, steps: seq<Record>)
    requires active in gens && KeyedById(gens) && Ascending(gens)
    ensures Descend(gens, rs, active, target) == Ok(steps) <==>
      exists nodes :: Descent(gens, rs, nodes, steps) && nodes[0] == active && nodes[|steps|] == target
  {
    hide Intact;
    var ns, ss := DescendWitness(gens, rs, active, target);
    if nodes :| Descent(gens, rs, nodes, steps) && nodes[0] == active && nodes[|steps|] == target {
      forall i | 0 <= i < |steps| ensures nodes[i] != target { Falls(gens, rs, nodes, steps, i, |steps|); }
      DescendFollows(gens, rs, nodes, steps, target);
      assert steps + [] == steps;
    }
  }

  /** It fails exactly where an ancestry without the target ends or breaks off. */
  lemma DescendFailsExactly(gens: Generations, rs: seq<Record>, active: nat, target: nat)
    requires active in gens && KeyedById(gens) && Ascending(gens)
    ensures
      var r := Descend(gens, rs, active, target);
      && (r == Err("ROLLBACK_TARGET_NOT_ANCESTOR") <==> EndsAtRoot(gens, rs, active, target))
      && (r == Err("ROLLBACK_HISTORY_UNAVAILABLE") <==> BreaksOff(gens, rs, active, target))
  {
    hide Intact;
    var ns, ss := DescendWitness(gens, rs, active, target);
    if Descend(gens, rs, active, target).Err? { assert Misses(gens, rs, active, target, ns, ss); }
    forall nodes, steps | Misses(gens, rs, active, target, nodes, steps)
      ensures Descend(gens, rs, active, target) == Descend(gens, rs, nodes[|steps|], target)
          || Descend(gens, rs, nodes[|steps|], target).Ok?
    {
      DescendFollows(gens, rs, nodes, steps, target);
    }
    forall nodes, steps | Misses(gens, rs, active, target, nodes, steps)
      ensures gens[nodes[|steps|]].parent.None? ==>
          Descend(gens, rs, nodes[|steps|], target) == Err("ROLLBACK_TARGET_NOT_ANCESTOR")
      ensures gens[nodes[|steps|]].parent.Some? && (forall r :: !Intact(gens, rs, r, nodes[|steps|])) ==>
          Descend(gens, rs, nodes[|steps|], target) == Err("ROLLBACK_HISTORY_UNAVAILABLE")
    {
      StopsAt(gens, rs, nodes[|steps|], target);
    }
  }

  lemma StopsAt(gens: Generations, rs: seq<Record>, current: nat, target: nat)
    requires current in gens && KeyedById(gens) && Ascending(gens) && current != target
    ensures gens[current].parent.None? ==> Descend(gens, rs, current, target) == Err("ROLLBACK_TARGET_NOT_ANCESTOR")
    ensures gens[current].parent.Some? && (forall r :: !Intact(gens, rs, r, current)) ==>
        Descend(gens, rs, current, target) == Err("ROLLBACK_HISTORY_UNAVAILABLE")
  {
    hide Intact;
    var link := Link(gens, rs, gens[current]);
    if link.Some? { LinkIsIntact(gens, rs, current, link.value); }
  }

  /** The target is unknown, failed, or not older than the active generation. */
  predicate Senseless(gens: Generations, active: nat, target: nat) {
    active !in gens || target !in gens || gens[target].number >= gens[active].number || gens[target].state.GenFailed?
  }

  /** The plan of a rollback, in every lineage in which children have higher numbers: exactly the records of the descent
      from the active generation to the target; and otherwise why there is none. */
  lemma PlanIsTheDescent(gens: Generations, rs: seq<Record>, active: nat, target: nat)
    requires KeyedById(gens) && Ascending(gens)
    ensures
      var plan := Plan(gens, rs, active, target);
      && (forall steps :: plan == Ok(steps) <==> exists nodes :: Reaches(gens, rs, active, target, nodes, steps))
      && (plan == Err("ROLLBACK_TARGET_INVALID") <==> Senseless(gens, active, target))
      && (plan == Err("ROLLBACK_TARGET_NOT_ANCESTOR") <==>
            !Senseless(gens, active, target) && EndsAtRoot(gens, rs, active, target))
      && (plan == Err("ROLLBACK_HISTORY_UNAVAILABLE") <==>
            !Senseless(gens, active, target) && BreaksOff(gens, rs, active, target))
  {
    hide Descent, Descend, EndsAtRoot, BreaksOff, Walk;
    forall nodes, steps | Reaches(gens, rs, active, target, nodes, steps) ensures !Senseless(gens, active, target) {
      ReachesOlder(gens, rs, active, target, nodes, steps);
    }
    if !Senseless(gens, active, target) {
      CycleCheckNeverFires(gens, rs, active, target, {});
      DescendFailsExactly(gens, rs, active, target);
      OtherErrors(gens, rs, active, target);
      forall steps
        ensures Plan(gens, rs, active, target) == Ok(steps) <==>
            exists nodes :: Reaches(gens, rs, active, target, nodes, steps)
      {
        DescendExactly(gens, rs, active, target, steps);
        NotEmpty(gens, rs, active, target, steps);
      }
    }
  }

  lemma ReachesOlder(gens: Generations, rs: seq<Record>, active: nat, target: nat, nodes: seq<nat>, steps: seq<Record>)
    requires Reaches(gens, rs, active, target, nodes, steps) && Ascending(gens)
    ensures !Senseless(gens, active, target)
  {
    hide Intact;
    Falls(gens, rs, nodes, steps, 0, |steps|);
  }

  lemma {:induction false} OtherErrors(gens: Generations, rs: seq<Record>, active: nat, target: nat)
    requires active in gens && KeyedById(gens) && Ascending(gens)
    ensures Descend(gens, rs, active, target) != Err("ROLLBACK_TARGET_INVALID")
  {
    hide Intact;
    var ns, ss := DescendWitness(gens, rs, active, target);
  }

  lemma NotEmpty(gens: Generations, rs: seq<Record>, active: nat, target: nat, steps: seq<Record>)
    requires !Senseless(gens, active, target)
    ensures (exists nodes :: Reaches(gens, rs, active, target, nodes, steps)) <==>
      exists nodes :: Descent(gens, rs, nodes, steps) && nodes[0] == active && nodes[|steps|] == target
  {
    hide Intact;
    if nodes :| Descent(gens, rs, nodes, steps) && nodes[0] == active && nodes[|steps|] == target {
      assert Reaches(gens, rs, active, target, nodes, steps);
    }
  }
}
