/**
 * Birth, rollback, deletion and recovery of releases (supervisor/generation_supervisor.ts).
 *
 * Three stores must agree: the lineage's ACTIVE row, the generation pointer and the active release. Every durable write
 * is one step of a `Machine`, whose process dies when the writes it has `left` run out. Smoke runs, services and file
 * copies do not appear: they only decide at which step an operation fails.
 */
module Supervisor {
  import opened Wrappers
  import opened ReleaseHistory

  datatype Phase = NoPhase | Migrating | CandidateSmoke | Switching | Starting | Completed | Stopping | Restored
      | Abandoned

  /** `manifest` is the generation number its genome claims; a candidate's release is `Built` of its position in the
      table. */
  datatype Candidate = Candidate(state: RecordState, phase: Phase, target: Option<nat>, base: nat, baseRelease: Release,
      manifest: nat)

  datatype Intent = Intent(active: nat, number: nat)

  /** `restored` is the generation named by the latest restoration event, `files` are the releases whose code is on
      disk. */
  datatype State = State(
    generations: Generations,
    candidates: seq<Candidate>,
    pointer: nat,
    release: Release,
    restored: Option<nat>,
    intents: map<nat, Intent>,
    files: set<Release>)

  // ---- Durable writes ----

  datatype Write =
    | Row(id: nat, row: Candidate)
    | NewGeneration(generation: Generation)
    | ActiveRelease(release: Release)
    | Pointer(to: nat)
    | Succession(ended: nat, end: GenerationState, begun: nat)
    | FailGeneration(failed: nat)
    | RestoredEvent(back: nat)
    | DeletionIntent(doomed: nat, intent: Intent)
    | RemoveFiles(files: Release)

  predicate Active(gens: Generations, g: nat) {
    g in gens && gens[g].state.GenActive?
  }

  function SetState(gens: Generations, g: nat, state: GenerationState): Generations {
    if g in gens then gens[g := gens[g].(state := state)] else gens
  }

  /** A transaction that breaks a table constraint throws. */
  function Do(s: State, w: Write): (r: Result<State>)
    ensures r.Ok? ==> |r.value.candidates| == |s.candidates|
  {
    match w
    case Row(id, row) => if id < |s.candidates| then Ok(s.(candidates := s.candidates[id := row])) else Ok(s)
    case NewGeneration(g) =>
      if exists h ::
          h in s.generations && (h == g.id || s.generations[h].number == g.number) then Err("SQLITE_CONSTRAINT_UNIQUE")
      else Ok(s.(generations := s.generations[g.id := g]))
    case ActiveRelease(release) => Ok(s.(release := release))
    case Pointer(g) => Ok(s.(pointer := g))
    case Succession(ended, end, begun) =>
      var gens := SetState(SetState(s.generations, ended, end), begun, GenActive);
      if exists h ::
          h in gens && h != begun && Active(gens, h) then Err("SQLITE_CONSTRAINT_UNIQUE")
          else Ok(s.(generations := gens))
    case FailGeneration(g) => Ok(s.(generations := SetState(s.generations, g, GenFailed)))
    case RestoredEvent(to) => Ok(s.(restored := Some(to)))
    case DeletionIntent(id, intent) =>
      if id < |s.candidates| then
        Ok(s.(candidates := s.candidates[id := s.candidates[id].(state := Deleting)],
            intents := s.intents[id := intent]))
      else Ok(s)
    case RemoveFiles(release) => Ok(s.(files := s.files - {release}))
  }

  datatype Halt = Alive | Died | Threw(error: string)

  datatype Machine = Machine(s: State, left: nat, halt: Halt)

  function Commit(m: Machine, w: Write): (r: Machine)
    ensures |r.s.candidates| == |m.s.candidates|
  {
    if !m.halt.Alive? then m
    else if m.left == 0 then m.(halt := Died)
    else
      var r := Do(m.s, w);
      if r.Err? then m.(halt := Threw(r.error)) else Machine(r.value, m.left - 1, Alive)
  }

  function Throw(m: Machine, error: string): (r: Machine)
    ensures |r.s.candidates| == |m.s.candidates|
  {
    if m.halt.Alive? then m.(halt := Threw(error)) else m
  }

  // ---- Guards ----

  predicate InTransition(c: Candidate) {
    c.state.Birthing? || c.state.RollingBack?
  }

  predicate Unfinished(c: Candidate) {
    InTransition(c) || c.state.Deleting?
  }

  predicate AnyInTransition(s: State) {
    exists i :: 0 <= i < |s.candidates| && InTransition(s.candidates[i])
  }

  predicate AnyUnfinished(s: State) {
    exists i :: 0 <= i < |s.candidates| && Unfinished(s.candidates[i])
  }

  /** The three stores name one generation. */
  predicate Consistent(s: State, g: nat) {
    Active(s.generations, g) && s.pointer == g && s.release == s.generations[g].release
  }

  /** `COALESCE(MAX(generation_no),0)+1`. */
  predicate IsNext(gens: Generations, n: nat) {
    && (forall g :: g in gens ==> gens[g].number < n)
    && ((n == 1 && gens == map[]) || exists g :: g in gens && gens[g].number + 1 == n)
  }

  // ---- Birth ----

  const BIRTH_WRITES: nat := 9

  function BirthWrite(id: nat, c: Candidate, k: nat): Write {
    var n := c.manifest;
    var row := c.(state := Birthing, target := Some(n));
    match k
    case 0 => Row(id, row.(phase := Migrating))
    case 1 => NewGeneration(Generation(n, n, Some(c.base), Built(id), GenBirthing))
    case 2 => Row(id, row.(phase := CandidateSmoke))
    case 3 => Row(id, row.(phase := Switching))
    case 4 => ActiveRelease(Built(id))
    case 5 => Pointer(n)
    case 6 => Row(id, row.(phase := Starting))
    case 7 => Succession(c.base, GenRetired, n)
    case _ => Row(id, row.(state := Born, phase := Completed))
  }

  function BirthSteps(m: Machine, id: nat, c: Candidate, k: nat): (r: Machine)
    ensures |r.s.candidates| == |m.s.candidates|
  {
    if k == 0 then m else Commit(BirthSteps(m, id, c, k - 1), BirthWrite(id, c, k - 1))
  }

  function BirthRefusal(s: State, id: nat): Option<string> {
    if id >= |s.candidates| then Some("GENE_CANDIDATE_NOT_FOUND")
    else
      var c := s.candidates[id];
      if !Active(s.generations, c.base) || s.generations[c.base].release != c.baseRelease
          then Some("CANDIDATE_BASE_CONFLICT")
      else if !Consistent(s, c.base) then Some("ACTIVE_TRUSTED_RELEASE_CONFLICT")
      else if !c.state.Approved? then Some("OWNER_EXACT_CANDIDATE_APPROVAL_REQUIRED")
      else if AnyInTransition(s) then Some("EVOLUTION_RECOVERY_REQUIRED")
      else if !IsNext(s.generations, c.manifest) then Some("GENOME_GENERATION_NUMBER_CONFLICT")
      else None
  }

  /** `fail` says after how many of its writes something in the birth fails, if anything does. */
  function Birth(m: Machine, id: nat, fail: Option<nat>): Machine {
    if id < |m.s.candidates| && m.s.candidates[id].state.Born? then m
    else if BirthRefusal(m.s, id).Some? then Throw(m, BirthRefusal(m.s, id).value)
    else
      var c := m.s.candidates[id];
      if fail.None? then BirthSteps(m, id, c, BIRTH_WRITES)
      else if fail.value == 0 then Commit(m, Row(id, c.(state := Failed, phase := Abandoned)))
      else Restore(BirthSteps(m, id, c, if fail.value < BIRTH_WRITES then fail.value else BIRTH_WRITES), id, GenFailed)
  }

  // ---- Restoration ----

  function Ending(end: GenerationState): RecordState {
    if end.GenRolledBack? then RolledBack else Failed
  }

  const ABANDON_WRITES: nat := 2

  /** Before the switch the old release was never stopped. */
  function AbandonWrite(id: nat, c: Candidate, k: nat): Write
    requires c.target.Some?
  {
    if k == 0 then FailGeneration(c.target.value) else Row(id, c.(state := Failed, phase := Restored))
  }

  function AbandonSteps(m: Machine, id: nat, c: Candidate, k: nat): (r: Machine)
    requires c.target.Some?
    ensures |r.s.candidates| == |m.s.candidates|
  {
    if k == 0 then m else Commit(AbandonSteps(m, id, c, k - 1), AbandonWrite(id, c, k - 1))
  }

  const RESTORE_WRITES: nat := 6

  function RestoreWrite(id: nat, c: Candidate, previous: Release, end: GenerationState, k: nat): Write
    requires c.target.Some?
  {
    match k
    case 0 => Row(id, c.(state := RollingBack, phase := Stopping))
    case 1 => ActiveRelease(previous)
    case 2 => Pointer(c.base)
    case 3 => Succession(c.target.value, end, c.base)
    case 4 => Row(id, c.(state := Ending(end), phase := Restored))
    case _ => RestoredEvent(c.base)
  }

  function RestoreSteps(m: Machine, id: nat, c: Candidate, previous: Release, end: GenerationState,
      k: nat): (r: Machine)
    requires c.target.Some?
    ensures |r.s.candidates| == |m.s.candidates|
  {
    if k == 0 then m else Commit(RestoreSteps(m, id, c, previous, end, k - 1),
        RestoreWrite(id, c, previous, end, k - 1))
  }

  predicate BeforeSwitch(c: Candidate) {
    c.phase.Migrating? || c.phase.CandidateSmoke?
  }

  function Restore(m: Machine, id: nat, end: GenerationState): (r: Machine)
    ensures |r.s.candidates| == |m.s.candidates|
  {
    if !m.halt.Alive? || id >= |m.s.candidates| || m.s.candidates[id].target.None? then m
    else
      var s, c := m.s, m.s.candidates[id];
      if c.base !in s.generations then Throw(m, "GENERATION_NOT_FOUND")
      else if BeforeSwitch(c) then
        if !Active(s.generations, c.base) || s.pointer != c.base then Throw(m, "PRE_SWITCH_RECOVERY_CONFLICT")
        else AbandonSteps(m, id, c, ABANDON_WRITES)
      else RestoreSteps(m, id, c, s.generations[c.base].release, end, RESTORE_WRITES)
  }

  // ---- Rollback ----

  function RollbackCandidate(m: Machine, id: nat): (r: Machine)
    ensures |r.s.candidates| == |m.s.candidates|
  {
    if !m.halt.Alive? then m
    else if id >= |m.s.candidates| || !m.s.candidates[id].state.Born? || m.s.candidates[id].target.None?
        || !Active(m.s.generations, m.s.candidates[id].target.value)
    then Throw(m, "GENERATION_NOT_ACTIVE")
    else Restore(m, id, GenRolledBack)
  }

  /** Without a guard against candidates in transition. */
  function Rollback(m: Machine, id: nat): Machine {
    if m.halt.Alive? && id >= |m.s.candidates| then Throw(m, "GENE_CANDIDATE_NOT_FOUND")
    else if m.halt.Alive? && m.s.candidates[id].state.RolledBack? then m
    else RollbackCandidate(m, id)
  }

  function RecordOf(s: State, i: nat): Record
    requires i < |s.candidates|
  {
    var c := s.candidates[i];
    Record(Built(i), c.state, c.target, c.base, c.baseRelease)
  }

  function Records(s: State): seq<Record> {
    seq(|s.candidates|, i requires 0 <= i < |s.candidates| => RecordOf(s, i))
  }

  function RollbackAll(m: Machine, steps: seq<Record>): Machine {
    if steps == [] then m
    else
      var t := RollbackAll(m, steps[..|steps| - 1]);
      var release := steps[|steps| - 1].id;
      if release.Built? then RollbackCandidate(t, release.candidate) else Throw(t, "GENE_CANDIDATE_NOT_FOUND")
  }

  function RollbackTo(m: Machine, target: nat, expected: nat): Machine {
    if !Active(m.s.generations, expected) then Throw(m, "RELEASE_ACTIVE_CHANGED")
    else if !Consistent(m.s, expected) then Throw(m, "ACTIVE_TRUSTED_RELEASE_CONFLICT")
    else if AnyUnfinished(m.s) then Throw(m, "EVOLUTION_RECOVERY_REQUIRED")
    else if !KeyedById(m.s.generations) then m
    else
      var plan := Plan(m.s.generations, Records(m.s), expected, target);
      if plan.Err? then Throw(m, plan.error) else RollbackAll(m, plan.value)
  }

  // ---- Deletion ----

  predicate RestoredToActive(s: State) {
    s.restored.Some? && Active(s.generations, s.restored.value)
  }

  /** The version a release would have, or had. */
  function VersionOf(s: State, c: Candidate): nat {
    if c.target.Some? && c.target.value in s.generations then s.generations[c.target.value].number else c.manifest
  }

  function DeleteRelease(m: Machine, id: nat, expected: nat): (r: Machine)
    ensures |r.s.candidates| == |m.s.candidates|
  {
    if !m.halt.Alive? then m
    else if id >= |m.s.candidates| then Throw(m, "GENE_CANDIDATE_NOT_FOUND")
    else
      var s, c := m.s, m.s.candidates[id];
      if c.state.Deleted? then m
      else if !Active(s.generations, expected) then Throw(m, "RELEASE_ACTIVE_CHANGED")
      else if !Consistent(s, expected) then Throw(m, "ACTIVE_TRUSTED_RELEASE_CONFLICT")
      else if AnyInTransition(s) then Throw(m, "EVOLUTION_RECOVERY_REQUIRED")
      else
        var intended := c.state.Deleting? && id in s.intents;
        var number := if intended then s.intents[id].number else VersionOf(s, c);
        if !CanDeleteRelease(if c.state.Deleting? then Failed
            else c.state, Built(id), number, s.generations[expected], RestoredToActive(s))
           || (intended && s.intents[id].active != expected)
        then Throw(m, "RELEASE_DELETE_DENIED")
        else
          var begun := if intended then m else Commit(m, DeletionIntent(id, Intent(expected, number)));
          Commit(Commit(begun, RemoveFiles(Built(id))), Row(id, c.(state := Deleted)))
  }

  predicate Eligible(s: State, i: nat, active: nat)
    requires i < |s.candidates|
  {
    active in s.generations && CanDeleteRelease(s.candidates[i].state, Built(i), VersionOf(s, s.candidates[i]),
        s.generations[active], true)
  }

  /** The releases were chosen from `s`, before the first of them was deleted. */
  function DeleteNewer(m: Machine, s: State, expected: nat, i: nat): Machine
    decreases |s.candidates| - i
  {
    if i >= |s.candidates| then m
    else DeleteNewer(if Eligible(s, i, expected) then DeleteRelease(m, i, expected) else m, s, expected, i + 1)
  }

  function DeleteNewerReleases(m: Machine, expected: nat): Machine {
    if !Active(m.s.generations, expected) then Throw(m, "RELEASE_ACTIVE_CHANGED")
    else if !Consistent(m.s, expected) then Throw(m, "ACTIVE_TRUSTED_RELEASE_CONFLICT")
    else if !RestoredToActive(m.s) then Throw(m, "RELEASE_DELETE_DENIED")
    else DeleteNewer(m, m.s, expected, 0)
  }

  // ---- Recovery ----

  function FinishDeletions(m: Machine, i: nat): Machine
    decreases |m.s.candidates| - i
  {
    if i >= |m.s.candidates| then m
    else
      var t := if m.halt.Alive? && m.s.candidates[i].state.Deleting? then
                 if i !in m.s.intents then Throw(m, "RELEASE_DELETE_INTENT_MISSING")
                     else DeleteRelease(m, i, m.s.intents[i].active)
               else m;
      FinishDeletions(t, i + 1)
  }

  function FinishTransitions(m: Machine, i: nat): Machine
    decreases |m.s.candidates| - i
  {
    if i >= |m.s.candidates| then m
    else
      var t := if m.halt.Alive? && InTransition(m.s.candidates[i]) then Restore(m, i, GenFailed) else m;
      FinishTransitions(t, i + 1)
  }

  function Recover(m: Machine): Machine {
    FinishTransitions(FinishDeletions(m, 0), 0)
  }
}
