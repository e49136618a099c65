/**
 * What a new generation's Current store receives from the old one (packages/persistence/src/current_store.ts): kept
 * needs, and the candidate chains of the active skills, each candidate after its predecessor. Tables are rows in
 * insertion order.
 */
module Migration {
  import opened Wrappers

  datatype NeedState = NeedOpen | NeedGenerated | NeedSatisfied | NeedOther

  datatype Need = Need(id: nat, text: nat, state: NeedState, carryForward: bool)

  datatype CandidateState = CandidateActive | CandidateRetired | CandidateOther

  datatype Candidate = Candidate(id: nat, skill: nat, need: Option<nat>, state: CandidateState, previous: Option<nat>,
      content: nat)

  datatype SkillState = SkillActive | SkillRevalidation | SkillOther

  datatype Skill = Skill(id: nat, name: nat, active: Option<nat>, interfaceVersion: nat, state: SkillState, runs: nat)

  datatype Working = Working(pixel: nat, content: nat, carryForward: bool)

  datatype Objective = Objective(id: nat, content: nat, open: bool, carryForward: bool)

  datatype Store = Store(
    interfaceVersion: nat,
    working: seq<Working>,
    objectives: seq<Objective>,
    needs: seq<Need>,
    candidates: seq<Candidate>,
    skills: seq<Skill>)

  function Find(cs: seq<Candidate>, id: nat): (r: Option<Candidate>)
    ensures r.Some? ==> r.value in cs && r.value.id == id
    ensures r.None? ==> forall i :: 0 <= i < |cs| ==> cs[i].id != id
  {
    if cs == [] then None else if cs[0].id == id then Some(cs[0]) else Find(cs[1..], id)
  }

  function Ids(cs: seq<Candidate>): (r: set<nat>)
    ensures forall id :: id in r <==> exists i :: 0 <= i < |cs| && cs[i].id == id
  {
    set c | c in cs :: c.id
  }

  predicate HasNeed(needs: seq<Need>, id: nat) {
    exists i :: 0 <= i < |needs| && needs[i].id == id
  }

  // ---- Needs ----

  predicate Embodied(former: Store, need: nat) {
    exists i, j ::
        0 <= i < |former.candidates| && 0 <= j < |former.skills|
        && Embodies(former.candidates[i], former.skills[j], need)
  }

  predicate Embodies(c: Candidate, s: Skill, need: nat) {
    s.active == Some(c.id) && c.need == Some(need) && c.state.CandidateActive? && s.state.SkillActive?
  }

  predicate Kept(former: Store, n: Need) {
    n.carryForward && (n.state.NeedOpen? || n.state.NeedGenerated?
        || (n.state.NeedSatisfied? && Embodied(former, n.id)))
  }

  function CarriedNeeds(former: Store, needs: seq<Need>, compatible: bool): (r: seq<Need>)
    ensures forall i :: 0 <= i < |r| ==> HasNeed(needs, r[i].id) && r[i].carryForward
  {
    if needs == [] then []
    else
      var before, n := CarriedNeeds(former, needs[..|needs| - 1], compatible), needs[|needs| - 1];
      if Kept(former, n) then before + [n.(state := if compatible && n.state.NeedSatisfied? then NeedSatisfied
          else NeedOpen, carryForward := true)] else before
  }

  // ---- Candidates ----

  /** A candidate as it is copied: its need is dropped when the need was not kept. */
  function Carried(c: Candidate, needs: seq<Need>): Candidate {
    if c.need.Some? && !HasNeed(needs, c.need.value) then c.(need := None) else c
  }

  predicate Copyable(c: Candidate) {
    c.state.CandidateActive? || c.state.CandidateRetired?
  }

  /** `path` holds the candidates whose copy waits for this one: meeting one of them again is unbounded recursion. */
  function Copy(former: seq<Candidate>, needs: seq<Need>, rows: seq<Candidate>, id: nat,
      path: set<nat>): (r: Result<seq<Candidate>>)
    decreases Ids(former) - path
  {
    if id in Ids(rows) then Ok(rows)
    else
      var c := Find(former, id);
      if c.None? || !Copyable(c.value) then Err("MIGRATION_SKILL_CANDIDATE_INVALID")
      else if id in path then Err("RangeError")
      else
        assert id in Ids(former) - path && id !in Ids(former) - (path + {id});
        var before := if c.value.previous.Some? then Copy(former, needs, rows, c.value.previous.value, path + {id})
            else Ok(rows);
        if before.Err? then before else Ok(before.value + [Carried(c.value, needs)])
  }

  function CopyAll(former: Store, needs: seq<Need>, skills: seq<Skill>): Result<seq<Candidate>> {
    if skills == [] then Ok([])
    else
      var rows, s := CopyAll(former, needs, skills[..|skills| - 1]), skills[|skills| - 1];
      if rows.Err? then rows
      else if s.state.SkillActive? && s.active.Some? then Copy(former.candidates, needs, rows.value, s.active.value, {})
      else rows
  }

  function CarriedSkills(skills: seq<Skill>, compatible: bool, interfaceVersion: nat): seq<Skill> {
    if skills == [] then []
    else
      var before, s := CarriedSkills(skills[..|skills| - 1], compatible, interfaceVersion), skills[|skills| - 1];
      if s.state.SkillActive? then
        before + [s.(state := if compatible && s.interfaceVersion == interfaceVersion then SkillActive
            else SkillRevalidation, runs := 0)]
      else before
  }

  function CarriedWorking(rows: seq<Working>): seq<Working> {
    if rows == [] then [] else CarriedWorking(rows[..|rows| - 1]) + if rows[|rows| - 1].carryForward
        then [rows[|rows| - 1]] else []
  }

  function CarriedObjectives(rows: seq<Objective>): seq<Objective> {
    if rows == [] then []
    else CarriedObjectives(rows[..|rows| - 1]) + if rows[|rows| - 1].carryForward && rows[|rows| - 1].open
        then [rows[|rows| - 1]] else []
  }

  /** Into the empty store of the new generation; all or nothing. */
  function Migrate(former: Store, interfaceVersion: nat): Result<Store> {
    var compatible := former.interfaceVersion == interfaceVersion;
    var needs := CarriedNeeds(former, former.needs, compatible);
    var rows := CopyAll(former, needs, former.skills);
    if rows.Err? then Err(rows.error)
    else
      Ok(Store(interfaceVersion, CarriedWorking(former.working), CarriedObjectives(former.objectives), needs,
          rows.value,
               CarriedSkills(former.skills, compatible, interfaceVersion)))
  }

  // ---- Chains ----

  /** The `k`-th predecessor of a candidate. */
  function Back(cs: seq<Candidate>, id: nat, k: nat): Option<nat> {
    if k == 0 then Some(id)
    else
      var p := Back(cs, id, k - 1);
      if p.None? || Find(cs, p.value).None? then None else Find(cs, p.value).value.previous
  }

  /** A chain every link of which may be copied, and that does not come back to itself. */
  ghost predicate Sound(cs: seq<Candidate>, id: nat) {
    && (forall k :: Back(cs, id, k).Some? ==>
        Find(cs, Back(cs, id, k).value).Some? && Copyable(Find(cs, Back(cs, id, k).value).value))
    && (forall i, k :: 0 <= i < k && Back(cs, id, i).Some? ==> Back(cs, id, k) != Back(cs, id, i))
  }

  lemma {:induction false} BackBack(cs: seq<Candidate>, id: nat, i: nat, k: nat)
    requires Back(cs, id, i).Some?
    ensures Back(cs, id, i + k) == Back(cs, Back(cs, id, i).value, k)
  {
    if k > 0 {
      BackBack(cs, id, i, k - 1);
    }
  }

  lemma SoundBack(cs: seq<Candidate>, id: nat, p: nat)
    requires Back(cs, id, 1) == Some(p) && Sound(cs, id)
    ensures Sound(cs, p)
  {
    forall k | Back(cs, p, k).Some? ensures Find(cs, Back(cs, p, k).value).Some?
        && Copyable(Find(cs, Back(cs, p, k).value).value) {
      BackBack(cs, id, 1, k);
    }
    forall i, k | 0 <= i < k && Back(cs, p, i).Some? ensures Back(cs, p, k) != Back(cs, p, i) {
      BackBack(cs, id, 1, i);
      BackBack(cs, id, 1, k);
    }
  }

  /** The rows copied so far: each once, unchanged but for a dropped need, and after its predecessor. */
  ghost predicate Closed(former: seq<Candidate>, needs: seq<Need>, rows: seq<Candidate>) {
    && (forall i, j :: 0 <= i < j < |rows| ==> rows[i].id != rows[j].id)
    && forall i :: 0 <= i < |rows| ==> RowOk(former, needs, rows, i)
  }

  ghost predicate RowOk(former: seq<Candidate>, needs: seq<Need>, rows: seq<Candidate>, i: nat)
    requires i < |rows|
  {
    var c := Find(former, rows[i].id);
    && c.Some? && Copyable(c.value) && rows[i] == Carried(c.value, needs)
    && (c.value.previous.Some? ==> exists j :: 0 <= j < i && rows[j].id == c.value.previous.value)
  }

  lemma CopyExtends(former: seq<Candidate>, needs: seq<Need>, rows: seq<Candidate>, c: Candidate)
    requires Closed(former, needs, rows) && Find(former, c.id) == Some(c) && Copyable(c) && c.id !in Ids(rows)
    requires c.previous.Some? ==> c.previous.value in Ids(rows)
    ensures Closed(former, needs, rows + [Carried(c, needs)])
  {
    var r := rows + [Carried(c, needs)];
    forall i | 0 <= i < |r| ensures RowOk(former, needs, r, i) {
      if i < |rows| {
        assert RowOk(former, needs, rows, i);
      }
      var before := Find(former, r[i].id).value.previous;
      if before.Some? {
        var j :| 0 <= j < |rows| && j < i && rows[j].id == before.value;
        assert r[j] == rows[j];
      }
    }
  }

  /** Everything already waiting leads to the candidate now copied. */
  ghost predicate LeadsTo(cs: seq<Candidate>, path: set<nat>, id: nat) {
    forall x :: x in path ==> exists k :: k > 0 && Back(cs, x, k) == Some(id)
  }

  lemma LeadsOn(cs: seq<Candidate>, path: set<nat>, id: nat)
    requires LeadsTo(cs, path, id) && Find(cs, id).Some? && Find(cs, id).value.previous.Some?
    ensures LeadsTo(cs, path + {id}, Find(cs, id).value.previous.value)
  {
    var p := Find(cs, id).value.previous.value;
    forall x | x in path + {id} ensures exists k :: k > 0 && Back(cs, x, k) == Some(p) {
      if x in path {
        var k :| k > 0 && Back(cs, x, k) == Some(id);
        assert Back(cs, x, k + 1) == Some(p);
      } else {
        assert Back(cs, id, 0) == Some(id);
        assert Back(cs, id, 1) == Some(p);
      }
    }
  }

  /** In closed rows each step back goes to an earlier row. */
  lemma {:induction false} BackIndex(cs: seq<Candidate>, needs: seq<Need>, rows: seq<Candidate>, i: nat, k: nat)
      returns (j: nat)
    requires Closed(cs, needs, rows) && i < |rows| && Back(cs, rows[i].id, k).Some?
    ensures j < |rows| && j + k <= i && Back(cs, rows[i].id, k) == Some(rows[j].id)
  {
    if k == 0 {
      j := i;
    } else {
      var h := BackIndex(cs, needs, rows, i, k - 1);
      assert RowOk(cs, needs, rows, h);
      j :| 0 <= j < h && rows[j].id == Find(cs, rows[h].id).value.previous.value;
    }
  }

  lemma ClosedIsSound(cs: seq<Candidate>, needs: seq<Need>, rows: seq<Candidate>, id: nat)
    requires Closed(cs, needs, rows) && id in Ids(rows)
    ensures Sound(cs, id)
  {
    var i :| 0 <= i < |rows| && rows[i].id == id;
    forall k | Back(cs, id, k).Some? ensures Find(cs, Back(cs, id, k).value).Some?
        && Copyable(Find(cs, Back(cs, id, k).value).value) {
      var j := BackIndex(cs, needs, rows, i, k);
      assert RowOk(cs, needs, rows, j);
    }
    forall a, b | 0 <= a < b && Back(cs, id, a).Some? ensures Back(cs, id, b) != Back(cs, id, a) {
      if Back(cs, id, b).Some? {
        var j := BackIndex(cs, needs, rows, i, a);
        BackBack(cs, id, a, b - a);
        var h := BackIndex(cs, needs, rows, j, b - a);
        assert h < j;
      }
    }
  }

  ghost predicate FromChain(cs: seq<Candidate>, id: nat, x: nat) {
    exists k :: Back(cs, id, k) == Some(x)
  }

  lemma FromPrevious(cs: seq<Candidate>, id: nat, p: nat, x: nat)
    requires Back(cs, id, 1) == Some(p) && FromChain(cs, p, x)
    ensures exists k :: k > 0 && Back(cs, id, k) == Some(x)
  {
    var k: nat :| Back(cs, p, k) == Some(x);
    BackBack(cs, id, 1, k);
    assert Back(cs, id, k + 1) == Some(x);
  }

  /** One copy succeeds exactly for a sound chain, and then adds what the chain still lacks, and nothing else. */
  lemma {:induction false} CopyWorks(cs: seq<Candidate>, needs: seq<Need>, rows: seq<Candidate>, id: nat,
      path: set<nat>)
    requires Closed(cs, needs, rows) && LeadsTo(cs, path, id)
    ensures
      var r := Copy(cs, needs, rows, id, path);
      && (r.Ok? <==> Sound(cs, id))
      && (r.Ok? ==> Closed(cs, needs, r.value) && rows <= r.value && id in Ids(r.value)
                    && forall i :: |rows| <= i < |r.value| ==> FromChain(cs, id, r.value[i].id))
    decreases Ids(cs) - path
  {
    var c := Find(cs, id);
    assert Back(cs, id, 0) == Some(id);
    if id in Ids(rows) {
      ClosedIsSound(cs, needs, rows, id);
    } else if c.Some? && Copyable(c.value) && id !in path {
      assert id in Ids(cs) - path && id !in Ids(cs) - (path + {id});
      CopyStep(cs, needs, rows, id, path, c.value);
    } else if c.Some? && Copyable(c.value) {
      var k :| k > 0 && Back(cs, id, k) == Some(id);
      assert Back(cs, id, k) == Back(cs, id, 0);
    }
  }

  lemma {:induction false} CopyStep(cs: seq<Candidate>, needs: seq<Need>, rows: seq<Candidate>, id: nat, path: set<nat>,
      c: Candidate)
    requires Closed(cs, needs, rows) && LeadsTo(cs, path, id) && Find(cs, id) == Some(c) && Copyable(c) && id !in path
        && id !in Ids(rows)
    ensures
      var r := Copy(cs, needs, rows, id, path);
      && (r.Ok? <==> Sound(cs, id))
      && (r.Ok? ==> Closed(cs, needs, r.value) && rows <= r.value && id in Ids(r.value)
                    && forall i :: |rows| <= i < |r.value| ==> FromChain(cs, id, r.value[i].id))
    decreases Ids(cs) - path, 0
  {
    assert id in Ids(cs) - path && id !in Ids(cs) - (path + {id});
    assert Back(cs, id, 0) == Some(id);
    var before := rows;
    if c.previous.Some? {
      var p := c.previous.value;
      assert Back(cs, id, 1) == Some(p);
      LeadsOn(cs, path, id);
      CopyWorks(cs, needs, rows, p, path + {id});
      var r := Copy(cs, needs, rows, p, path + {id});
      if r.Err? {
        if Sound(cs, id) { SoundBack(cs, id, p); }
        return;
      }
      before := r.value;
      forall i | |rows| <= i < |before| ensures FromChain(cs, id, before[i].id) && before[i].id != id {
        FromPrevious(cs, id, p, before[i].id);
        if before[i].id == id {
          ClosedIsSound(cs, needs, before, id);
        }
      }
      assert id !in Ids(before);
    }
    CopyExtends(cs, needs, before, c);
    var after := before + [Carried(c, needs)];
    assert after[|before|].id == id;
    ClosedIsSound(cs, needs, after, id);
    assert FromChain(cs, id, id);
  }

  /** Everything behind a copied candidate is copied too. */
  lemma ClosedHoldsChain(cs: seq<Candidate>, needs: seq<Need>, rows: seq<Candidate>, id: nat, k: nat)
    requires Closed(cs, needs, rows) && id in Ids(rows) && Back(cs, id, k).Some?
    ensures Back(cs, id, k).value in Ids(rows)
  {
    var i :| 0 <= i < |rows| && rows[i].id == id;
    var j := BackIndex(cs, needs, rows, i, k);
  }

  ghost predicate Wanted(skills: seq<Skill>, a: nat) {
    exists j :: 0 <= j < |skills| && skills[j].state.SkillActive? && skills[j].active == Some(a)
  }

  lemma WantedStep(skills: seq<Skill>, a: nat)
    requires skills != []
    ensures
      var s := skills[|skills| - 1];
      Wanted(skills, a) <==> Wanted(skills[..|skills| - 1], a) || (s.state.SkillActive? && s.active == Some(a))
  {
    var before, s := skills[..|skills| - 1], skills[|skills| - 1];
    if Wanted(before, a) {
      var j :| 0 <= j < |before| && before[j].state.SkillActive? && before[j].active == Some(a);
      assert skills[j] == before[j];
    }
    if s.state.SkillActive? && s.active == Some(a) {
      assert skills[|skills| - 1] == s;
    }
  }

  /** A candidate in the chain behind an active skill. */
  ghost predicate InWantedChain(cs: seq<Candidate>, skills: seq<Skill>, x: nat) {
    exists a: nat :: Wanted(skills, a) && FromChain(cs, a, x)
  }

  ghost predicate OnlyWanted(cs: seq<Candidate>, skills: seq<Skill>, rows: seq<Candidate>) {
    forall i :: 0 <= i < |rows| ==> InWantedChain(cs, skills, rows[i].id)
  }

  lemma OnlyWantedStep(cs: seq<Candidate>, skills: seq<Skill>, rows: seq<Candidate>, more: seq<Candidate>, active: nat)
    requires skills != [] && skills[|skills| - 1].state.SkillActive? && skills[|skills| - 1].active == Some(active)
    requires OnlyWanted(cs, skills[..|skills| - 1], rows) && rows <= more && forall i :: |rows| <= i < |more| ==>
        FromChain(cs, active, more[i].id)
    ensures OnlyWanted(cs, skills, more)
  {
    WantedStep(skills, active);
    forall i | 0 <= i < |more| ensures InWantedChain(cs, skills, more[i].id) {
      if i < |rows| {
        assert InWantedChain(cs, skills[..|skills| - 1], rows[i].id);
        var a: nat :| Wanted(skills[..|skills| - 1], a) && FromChain(cs, a, rows[i].id);
        WantedStep(skills, a);
      }
    }
  }

  lemma {:induction false} CopyAllWorks(former: Store, needs: seq<Need>, skills: seq<Skill>)
    ensures
      var r := CopyAll(former, needs, skills);
      && (r.Ok? <==> forall a :: Wanted(skills, a) ==> Sound(former.candidates, a))
      && (r.Ok? ==> Closed(former.candidates, needs, r.value) && OnlyWanted(former.candidates, skills, r.value)
                    && forall a :: Wanted(skills, a) ==> a in Ids(r.value))
  {
    hide Sound, Closed, FromChain, Wanted, OnlyWanted;
    if skills == [] {
      NothingWanted(former.candidates, needs);
    } else {
      var before, s := skills[..|skills| - 1], skills[|skills| - 1];
      CopyAllWorks(former, needs, before);
      forall a: nat ensures Wanted(skills, a) <==> Wanted(before, a) || (s.state.SkillActive? && s.active == Some(a)) {
        WantedStep(skills, a);
      }
      var rows := CopyAll(former, needs, before);
      if rows.Ok? {
        if s.state.SkillActive? && s.active.Some? {
          NothingLeads(former.candidates, s.active.value);
          CopyWorks(former.candidates, needs, rows.value, s.active.value, {});
          var r := Copy(former.candidates, needs, rows.value, s.active.value, {});
          if r.Ok? {
            OnlyWantedStep(former.candidates, skills, rows.value, r.value, s.active.value);
          }
        } else {
          SameWanted(former.candidates, skills, before, rows.value);
        }
      }
    }
  }

  lemma NothingWanted(cs: seq<Candidate>, needs: seq<Need>)
    ensures Closed(cs, needs, []) && OnlyWanted(cs, [], []) && forall a :: !Wanted([], a)
  {
  }

  lemma NothingLeads(cs: seq<Candidate>, id: nat)
    ensures LeadsTo(cs, {}, id)
  {
  }

  lemma SameWanted(cs: seq<Candidate>, skills: seq<Skill>, before: seq<Skill>, rows: seq<Candidate>)
    requires OnlyWanted(cs, before, rows) && forall a: nat :: Wanted(before, a) ==> Wanted(skills, a)
    ensures OnlyWanted(cs, skills, rows)
  {
    forall i | 0 <= i < |rows| ensures InWantedChain(cs, skills, rows[i].id) {
      assert InWantedChain(cs, before, rows[i].id);
      var a: nat :| Wanted(before, a) && FromChain(cs, a, rows[i].id);
      assert Wanted(skills, a);
    }
  }

  lemma {:induction false} NeedsAreCarried(former: Store, needs: seq<Need>, compatible: bool, id: nat)
    ensures HasNeed(CarriedNeeds(former, needs, compatible), id) <==>
        exists i :: 0 <= i < |needs| && needs[i].id == id && Kept(former, needs[i])
  {
    if needs != [] {
      var before, n := needs[..|needs| - 1], needs[|needs| - 1];
      NeedsAreCarried(former, before, compatible, id);
      var r, c := CarriedNeeds(former, needs, compatible), CarriedNeeds(former, before, compatible);
      if HasNeed(c, id) {
        var i :| 0 <= i < |before| && before[i].id == id && Kept(former, before[i]);
        assert needs[i] == before[i];
        var j :| 0 <= j < |c| && c[j].id == id;
        assert r[j] == c[j];
      }
      if n.id == id && Kept(former, n) {
        assert r[|r| - 1].id == id && needs[|needs| - 1] == n;
      }
    }
  }

  /** The migration succeeds exactly when the chain of every active skill is sound. It then holds, each once and after
      its predecessor, exactly the candidates of those chains; and a candidate refers to a need exactly when the old one
      did and that need was kept. */
  lemma MigrationCopiesExactlyTheChains(former: Store, interfaceVersion: nat)
    ensures
      var r := Migrate(former, interfaceVersion);
      && (r.Ok? <==> forall a :: Wanted(former.skills, a) ==> Sound(former.candidates, a))
      && (r.Ok? ==>
            && Closed(former.candidates, r.value.needs, r.value.candidates)
            && (forall x :: x in Ids(r.value.candidates) <==> InWantedChain(former.candidates, former.skills, x))
            && (forall id :: HasNeed(r.value.needs, id) <==>
                exists i :: 0 <= i < |former.needs| && former.needs[i].id == id && Kept(former, former.needs[i])))
  {
    hide Sound, Closed, InWantedChain, OnlyWanted, Kept, HasNeed, Wanted;
    var compatible := former.interfaceVersion == interfaceVersion;
    var needs := CarriedNeeds(former, former.needs, compatible);
    CopyAllWorks(former, needs, former.skills);
    forall id ensures HasNeed(needs, id) <==>
        exists i :: 0 <= i < |former.needs| && former.needs[i].id == id && Kept(former, former.needs[i]) {
      NeedsAreCarried(former, former.needs, compatible, id);
    }
    var rows := CopyAll(former, needs, former.skills);
    if rows.Ok? {
      forall x: nat ensures x in Ids(rows.value) <==> InWantedChain(former.candidates, former.skills, x) {
        RowsAreTheChains(former.candidates, needs, former.skills, rows.value, x);
      }
    }
  }

  lemma RowsAreTheChains(cs: seq<Candidate>, needs: seq<Need>, skills: seq<Skill>, rows: seq<Candidate>, x: nat)
    requires Closed(cs, needs, rows) && OnlyWanted(cs, skills, rows) && forall a :: Wanted(skills, a) ==> a in Ids(rows)
    ensures x in Ids(rows) <==> InWantedChain(cs, skills, x)
  {
    if InWantedChain(cs, skills, x) {
      var a: nat :| Wanted(skills, a) && FromChain(cs, a, x);
      var k: nat :| Back(cs, a, k) == Some(x);
      ClosedHoldsChain(cs, needs, rows, a, k);
    }
  }
}
