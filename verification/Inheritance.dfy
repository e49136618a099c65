/** What a new generation inherits (packages/persistence/src/current_store.ts), said of the old rows. */
module Inheritance {
  import opened Wrappers
  import opened Migration

  /** `to` are the images of the rows of `from` that are kept, in their order; `at` says where they came from. */
  ghost predicate KeepsAt<A, B(!new)>(from: seq<A>, to: seq<B>, keep: A -> bool, image: A -> B, at: seq<nat>) {
    && |at| == |to| && (forall i, j :: 0 <= i < j < |at| ==> at[i] < at[j])
    && (forall i :: 0 <= i < |to| ==> at[i] < |from| && keep(from[at[i]]) && to[i] == image(from[at[i]]))
    && forall k :: 0 <= k < |from| && keep(from[k]) ==> k in at
  }

  ghost predicate Keeps<A, B(!new)>(from: seq<A>, to: seq<B>, keep: A -> bool, image: A -> B) {
    exists at :: KeepsAt(from, to, keep, image, at)
  }

  lemma KeepsNothing<A, B(!new)>(keep: A -> bool, image: A -> B)
    ensures Keeps([], [], keep, image)
  {
    assert KeepsAt([], [], keep, image, []);
  }

  lemma OneMoreAt<A, B(!new)>(from: seq<A>, to: seq<B>, a: A, b: B, keep: A -> bool, image: A -> B, at: seq<nat>)
    requires KeepsAt(from, to, keep, image, at) && keep(a) && b == image(a)
    ensures KeepsAt(from + [a], to + [b], keep, image, at + [|from|])
  {
    var n, more := |from|, at + [|from|];
    assert forall i :: 0 <= i < |more| ==> more[i] == if i < |at| then at[i] else n;
    forall k | 0 <= k < |from + [a]| && keep((from + [a])[k]) ensures k in more {
      if k < n { assert keep(from[k]); }
    }
  }

  lemma OneLessAt<A, B(!new)>(from: seq<A>, to: seq<B>, a: A, keep: A -> bool, image: A -> B, at: seq<nat>)
    requires KeepsAt(from, to, keep, image, at) && !keep(a)
    ensures KeepsAt(from + [a], to, keep, image, at)
  {
    forall k | 0 <= k < |from + [a]| && keep((from + [a])[k]) ensures k in at {
      assert k < |from| && keep(from[k]);
    }
  }

  /** One row more. */
  lemma KeepsOneMore<A, B(!new)>(from: seq<A>, to: seq<B>, a: A, keep: A -> bool, image: A -> B)
    requires Keeps(from, to, keep, image)
    ensures Keeps(from + [a], if keep(a) then to + [image(a)] else to, keep, image)
  {
    hide KeepsAt;
    var at :| KeepsAt(from, to, keep, image, at);
    if keep(a) { OneMoreAt(from, to, a, image(a), keep, image, at); } else { OneLessAt(from, to, a, keep, image, at); }
  }

  // ---- What is kept, and as what ----

  /** An active skill runs an active candidate that was made for the need. */
  predicate Lives(former: Store, need: nat) {
    exists i, j :: 0 <= i < |former.candidates| && 0 <= j < |former.skills|
      && Runs(former.skills[j], former.candidates[i], need)
  }

  predicate Runs(s: Skill, c: Candidate, need: nat) {
    s.state.SkillActive? && s.active == Some(c.id) && c.state.CandidateActive? && c.need == Some(need)
  }

  function KeepsNeed(former: Store): Need -> bool {
    (n: Need) => n.carryForward && (n.state.NeedOpen? || n.state.NeedGenerated?
        || (n.state.NeedSatisfied? && Lives(former, n.id)))
  }

  /** A need counts as satisfied only while the interface stays the same. */
  function NeedNow(compatible: bool): Need -> Need {
    (n: Need) => n.(state := if compatible && n.state.NeedSatisfied? then NeedSatisfied
        else NeedOpen, carryForward := true)
  }

  /** A skill stays active only if it was made for the interface that stays; otherwise it waits to be validated
      again. */
  function SkillNow(compatible: bool, version: nat): Skill -> Skill {
    (s: Skill) => s.(state := if compatible && s.interfaceVersion == version then SkillActive
        else SkillRevalidation, runs := 0)
  }

  lemma {:induction false} WorkingIsKept(rows: seq<Working>)
    ensures Keeps(rows, CarriedWorking(rows), (r: Working) => r.carryForward, (r: Working) => r)
  {
    hide Keeps;
    if rows == [] {
      KeepsNothing((r: Working) => r.carryForward, (r: Working) => r);
    } else {
      var n := |rows| - 1;
      WorkingIsKept(rows[..n]);
      KeepsOneMore(rows[..n], CarriedWorking(rows[..n]), rows[n], (r: Working) => r.carryForward, (r: Working) => r);
      assert rows[..n] + [rows[n]] == rows && CarriedWorking(rows[..n]) + [] == CarriedWorking(rows[..n]);
    }
  }

  lemma {:induction false} ObjectivesAreKept(rows: seq<Objective>)
    ensures Keeps(rows, CarriedObjectives(rows), (r: Objective) => r.carryForward && r.open, (r: Objective) => r)
  {
    hide Keeps;
    if rows == [] {
      KeepsNothing((r: Objective) => r.carryForward && r.open, (r: Objective) => r);
    } else {
      var n := |rows| - 1;
      ObjectivesAreKept(rows[..n]);
      KeepsOneMore(rows[..n], CarriedObjectives(rows[..n]), rows[n], (r: Objective) => r.carryForward && r.open,
        (r: Objective) => r);
      assert rows[..n] + [rows[n]] == rows && CarriedObjectives(rows[..n]) + [] == CarriedObjectives(rows[..n]);
    }
  }

  lemma LivesIsEmbodied(former: Store, need: nat)
    ensures Embodied(former, need) <==> Lives(former, need)
  {
    assert forall c, s :: Embodies(c, s, need) <==> Runs(s, c, need);
  }

  lemma {:induction false} NeedsAreKept(former: Store, needs: seq<Need>, compatible: bool)
    ensures Keeps(needs, CarriedNeeds(former, needs, compatible), KeepsNeed(former), NeedNow(compatible))
  {
    hide Keeps, Lives, Embodied;
    if needs == [] {
      KeepsNothing(KeepsNeed(former), NeedNow(compatible));
    } else {
      var n := |needs| - 1;
      NeedsAreKept(former, needs[..n], compatible);
      LivesIsEmbodied(former, needs[n].id);
      KeepsOneMore(needs[..n], CarriedNeeds(former, needs[..n], compatible), needs[n], KeepsNeed(former),
        NeedNow(compatible));
      assert needs[..n] + [needs[n]] == needs;
    }
  }

  lemma {:induction false} SkillsAreKept(skills: seq<Skill>, compatible: bool, version: nat)
    ensures Keeps(skills, CarriedSkills(skills, compatible, version), (s: Skill) => s.state.SkillActive?,
        SkillNow(compatible, version))
  {
    hide Keeps;
    if skills == [] {
      KeepsNothing((s: Skill) => s.state.SkillActive?, SkillNow(compatible, version));
    } else {
      var n := |skills| - 1;
      SkillsAreKept(skills[..n], compatible, version);
      KeepsOneMore(skills[..n], CarriedSkills(skills[..n], compatible, version), skills[n],
        (s: Skill) => s.state.SkillActive?, SkillNow(compatible, version));
      assert skills[..n] + [skills[n]] == skills;
    }
  }

  /** A new generation inherits, in their order and nothing else: the working states and open objectives marked to be
      carried on, the needs still open or embodied by a running skill, and the active skills; a changed interface opens
      satisfied needs again and sends skills back to validation. */
  lemma GenerationInheritsExactly(former: Store, version: nat)
    requires Migrate(former, version).Ok?
    ensures
      var t, compatible := Migrate(former, version).value, former.interfaceVersion == version;
      && t.interfaceVersion == version
      && Keeps(former.working, t.working, (r: Working) => r.carryForward, (r: Working) => r)
      && Keeps(former.objectives, t.objectives, (r: Objective) => r.carryForward && r.open, (r: Objective) => r)
      && Keeps(former.needs, t.needs, KeepsNeed(former), NeedNow(compatible))
      && Keeps(former.skills, t.skills, (s: Skill) => s.state.SkillActive?, SkillNow(compatible, version))
  {
    hide Keeps, KeepsNeed, NeedNow, SkillNow, CarriedWorking, CarriedObjectives, CarriedNeeds, CarriedSkills;
    WorkingIsKept(former.working);
    ObjectivesAreKept(former.objectives);
    NeedsAreKept(former, former.needs, former.interfaceVersion == version);
    SkillsAreKept(former.skills, former.interfaceVersion == version, version);
  }

  // ---- The candidates ----

  /** The row of an id: the first that has it. */
  ghost predicate RowOf(cs: seq<Candidate>, id: nat, c: Candidate) {
    exists i :: 0 <= i < |cs| && cs[i] == c && c.id == id && forall k :: 0 <= k < i ==> cs[k].id != id
  }

  /** A candidate with all its predecessors, each known and active or retired, back to one that has none. */
  ghost predicate Line(cs: seq<Candidate>, path: seq<Candidate>) {
    && path != []
    && (forall i :: 0 <= i < |path| ==>
          RowOf(cs, path[i].id, path[i]) && (path[i].state.CandidateActive? || path[i].state.CandidateRetired?))
    && (forall i :: 0 <= i < |path| - 1 ==> path[i].previous == Some(path[i + 1].id))
    && path[|path| - 1].previous.None?
  }

  ghost predicate LineFrom(cs: seq<Candidate>, id: nat, path: seq<Candidate>) {
    Line(cs, path) && path[0].id == id
  }

  /** An active skill runs the candidate. */
  ghost predicate RunBySkill(skills: seq<Skill>, a: nat) {
    exists s :: s in skills && s.state.SkillActive? && s.active == Some(a)
  }

  /** The candidate is on the line of one an active skill runs. */
  ghost predicate Needed(cs: seq<Candidate>, skills: seq<Skill>, x: nat) {
    exists a: nat, path :: RunBySkill(skills, a) && LineFrom(cs, a, path) && OnLine(path, x)
  }

  ghost predicate OnLine(path: seq<Candidate>, x: nat) {
    exists c :: c in path && c.id == x
  }

  /** A copied row: the old one, without its need if that was not kept, and after its predecessor. */
  ghost predicate CopiedAt(cs: seq<Candidate>, t: Store, i: nat)
    requires i < |t.candidates|
  {
    var row := t.candidates[i];
    exists c :: RowOf(cs, row.id, c) && CopyOf(t, c, row)
      && (c.previous.Some? ==> exists j :: 0 <= j < i && t.candidates[j].id == c.previous.value)
  }

  ghost predicate CopyOf(t: Store, c: Candidate, row: Candidate) {
    && row == c.(need := row.need)
    && (row.need.Some? ==> row.need == c.need)
    && (row.need.Some? <==> c.need.Some? && exists n :: n in t.needs && n.id == c.need.value)
  }

  lemma {:induction false} RowIsFound(cs: seq<Candidate>, id: nat, c: Candidate)
    ensures RowOf(cs, id, c) <==> Migration.Find(cs, id) == Some(c)
  {
    if cs != [] {
      RowIsFound(cs[1..], id, c);
      if cs[0].id != id && RowOf(cs[1..], id, c) {
        var i :| 0 <= i < |cs[1..]| && cs[1..][i] == c && c.id == id && forall k :: 0 <= k < i ==> cs[1..][k].id != id;
        assert forall k :: 1 <= k < i + 1 ==> cs[k] == cs[1..][k - 1];
        assert cs[i + 1] == c;
      }
      if i :| 1 <= i < |cs| && cs[i] == c && c.id == id && forall k :: 0 <= k < i ==> cs[k].id != id {
        assert cs[1..][i - 1] == c;
      }
    }
  }

  lemma {:induction false} LineIsBack(cs: seq<Candidate>, path: seq<Candidate>, k: nat)
    requires Line(cs, path)
    ensures Back(cs, path[0].id, k) == if k < |path| then Some(path[k].id) else None
  {
    if k > 0 {
      LineIsBack(cs, path, k - 1);
      if k - 1 < |path| { RowIsFound(cs, path[k - 1].id, path[k - 1]); }
    }
  }

  lemma LineIsSound(cs: seq<Candidate>, path: seq<Candidate>)
    requires Line(cs, path)
    ensures Sound(cs, path[0].id)
  {
    hide RowOf;
    var id := path[0].id;
    forall k: nat | Back(cs, id, k).Some?
      ensures Find(cs, Back(cs, id, k).value).Some? && Copyable(Find(cs, Back(cs, id, k).value).value)
    {
      LineIsBack(cs, path, k);
      RowIsFound(cs, path[k].id, path[k]);
    }
    forall i: nat, k: nat | i < k && Back(cs, id, i).Some? ensures Back(cs, id, k) != Back(cs, id, i) {
      LineIsBack(cs, path, i);
      LineIsBack(cs, path, k);
      if Back(cs, id, k) == Back(cs, id, i) {
        BackBack(cs, id, i, |path| - k);
        BackBack(cs, id, k, |path| - k);
        LineIsBack(cs, path, i + (|path| - k));
        LineIsBack(cs, path, |path|);
      }
    }
  }

  /** `seen` cannot be met again, so the line ends. */
  lemma {:induction false} SoundHasLine(cs: seq<Candidate>, id: nat, seen: set<nat>) returns (path: seq<Candidate>)
    requires Sound(cs, id) && forall k: nat :: Back(cs, id, k).Some? ==> Back(cs, id, k).value !in seen
    ensures LineFrom(cs, id, path)
    decreases Ids(cs) - seen
  {
    hide RowOf;
    assert Back(cs, id, 0) == Some(id);
    var c := Find(cs, id).value;
    RowIsFound(cs, id, c);
    assert id in Ids(cs) - seen && id !in Ids(cs) - (seen + {id});
    path := [c];
    if c.previous.Some? {
      var p := c.previous.value;
      assert Back(cs, id, 1) == Some(p);
      SoundBack(cs, id, p);
      forall k: nat | Back(cs, p, k).Some? ensures Back(cs, p, k).value !in seen + {id} {
        BackBack(cs, id, 1, k);
        assert Back(cs, id, 1 + k) != Back(cs, id, 0);
      }
      var rest := SoundHasLine(cs, p, seen + {id});
      path := [c] + rest;
      assert forall i :: 1 <= i < |path| ==> path[i] == rest[i - 1];
    }
  }

  lemma SoundIsLine(cs: seq<Candidate>, id: nat)
    ensures Sound(cs, id) <==> exists path :: LineFrom(cs, id, path)
  {
    hide Line;
    if Sound(cs, id) { var path := SoundHasLine(cs, id, {}); }
    if path :| LineFrom(cs, id, path) { LineIsSound(cs, path); }
  }

  lemma RunIsWanted(skills: seq<Skill>, a: nat)
    ensures RunBySkill(skills, a) <==> Wanted(skills, a)
  {
    if s :| s in skills && s.state.SkillActive? && s.active == Some(a) {
      var j :| 0 <= j < |skills| && skills[j] == s;
    }
    if j :| 0 <= j < |skills| && skills[j].state.SkillActive? && skills[j].active == Some(a) {
      assert skills[j] in skills;
    }
  }

  lemma LineHolds(cs: seq<Candidate>, id: nat, path: seq<Candidate>, x: nat)
    requires LineFrom(cs, id, path)
    ensures FromChain(cs, id, x) <==> OnLine(path, x)
  {
    hide RowOf;
    if k: nat :| Back(cs, id, k) == Some(x) {
      LineIsBack(cs, path, k);
      assert path[k] in path;
    }
    if c :| c in path && c.id == x {
      var k: nat :| k < |path| && path[k] == c;
      LineIsBack(cs, path, k);
    }
  }

  lemma NeededIsWanted(cs: seq<Candidate>, skills: seq<Skill>, x: nat)
    requires forall a :: Wanted(skills, a) ==> Sound(cs, a)
    ensures Needed(cs, skills, x) <==> InWantedChain(cs, skills, x)
  {
    hide Sound, Wanted, RunBySkill, LineFrom, FromChain, OnLine;
    if a: nat, path :| RunBySkill(skills, a) && LineFrom(cs, a, path) && OnLine(path, x) {
      RunIsWanted(skills, a);
      LineHolds(cs, a, path, x);
    }
    if a: nat :| Wanted(skills, a) && FromChain(cs, a, x) {
      RunIsWanted(skills, a);
      SoundIsLine(cs, a);
      var path :| LineFrom(cs, a, path);
      LineHolds(cs, a, path, x);
    }
  }

  lemma RowIsCopied(former: Store, t: Store, i: nat)
    requires i < |t.candidates| && RowOk(former.candidates, t.needs, t.candidates, i)
    ensures CopiedAt(former.candidates, t, i)
  {
    hide RowOf;
    var c := Find(former.candidates, t.candidates[i].id).value;
    RowIsFound(former.candidates, t.candidates[i].id, c);
    if c.need.Some? && HasNeed(t.needs, c.need.value) {
      var k :| 0 <= k < |t.needs| && t.needs[k].id == c.need.value;
      assert t.needs[k] in t.needs;
    }
    assert CopyOf(t, c, t.candidates[i]);
  }

  /** The code of a generation is inherited exactly when every candidate an active skill runs has an unbroken line of
      predecessors. The new store then holds, each once and after its predecessor, the candidates on those lines and no
      others, as they were but for needs that were not kept. */
  lemma CandidatesAreInheritedExactly(former: Store, version: nat)
    ensures
      var r, cs := Migrate(former, version), former.candidates;
      && (r.Ok? <==> forall a :: RunBySkill(former.skills, a) ==> exists path :: LineFrom(cs, a, path))
      && (r.Ok? ==>
            && (forall i, j :: 0 <= i < j < |r.value.candidates| ==>
                r.value.candidates[i].id != r.value.candidates[j].id)
            && (forall i :: 0 <= i < |r.value.candidates| ==> CopiedAt(cs, r.value, i))
            && (forall x: nat :: OnLine(r.value.candidates, x) <==> Needed(cs, former.skills, x)))
  {
    hide Sound, RunBySkill, Wanted, LineFrom, InWantedChain, Needed, RowOk, CopiedAt, Migrate;
    MigrationCopiesExactlyTheChains(former, version);
    forall a: nat ensures (RunBySkill(former.skills, a) <==> Wanted(former.skills, a))
        && (Sound(former.candidates, a) <==> exists path :: LineFrom(former.candidates, a, path))
    {
      RunIsWanted(former.skills, a);
      SoundIsLine(former.candidates, a);
    }
    if Migrate(former, version).Ok? {
      var t := Migrate(former, version).value;
      forall i | 0 <= i < |t.candidates| ensures CopiedAt(former.candidates, t, i) { RowIsCopied(former, t, i); }
      forall x: nat ensures OnLine(t.candidates, x) <==> Needed(former.candidates, former.skills, x) {
        NeededIsWanted(former.candidates, former.skills, x);
        assert OnLine(t.candidates, x) <==> x in Ids(t.candidates);
      }
    }
  }
}
