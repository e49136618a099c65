/**
 * The allowances that bound automatic work on one goal (company_progress_service.ts): call counts and a time window per
 * scope, attempts per missing fact. Plans, occurrences and evidence texts belong to other services; what they answer
 * appears as parameters.
 */
module Progress {
  import opened Wrappers

  const MODEL_CALLS: nat := 60
  const TOOL_CALLS: nat := 120
  const WINDOW_MS: nat := 15 * 60_000
  const GAP_ATTEMPTS: nat := 3

  /** `model:<operation>:<transport attempt>` and `tool:<operation>`. */
  datatype OperationKey = ModelKey(operation: nat, transport: nat) | ToolKey(operation: nat)

  datatype ScopeKey = Once | Scheduled(node: nat, at: nat)

  datatype Verdict = Completed | Partial | Retry | Deferred | Blocked

  datatype Scope = Scope(
    key: ScopeKey,
    dispatches: seq<nat>,
    operations: seq<OperationKey>,
    modelCalls: nat,
    toolCalls: nat,
    maxModelCalls: nat,
    maxToolCalls: nat,
    windowMs: nat,
    startedAt: Option<nat>,
    deadlineAt: Option<nat>,
    resume: set<nat>,
    outcomes: map<nat, Verdict>)

  /** A missing fact: the output of a node in a scope, or one requirement of it under one criterion. */
  datatype GapKey = Output(node: nat, scope: ScopeKey)
      | Requirement(node: nat, requirement: nat, criterion: nat, scope: ScopeKey)

  datatype GapStatus = Open | Resolved | GapDeferred

  datatype Attempt = Attempt(key: AttemptKey, methodKey: nat, fingerprint: Option<nat>)

  datatype AttemptKey = ExecutionAttempt(attempt: nat) | ToolAttempt(operation: nat)

  datatype Gap = Gap(nodes: seq<nat>, status: GapStatus, limit: nat, attempts: seq<Attempt>, superseded: bool)

  type Gaps = map<GapKey, Gap>

  /** The rows of one goal, scopes in the order they were created. */
  datatype State = State(scopes: seq<Scope>, gaps: Gaps)

  const INITIAL := State([], map[])

  // ---- Scopes ----

  function ForDispatch(scopes: seq<Scope>, dispatch: nat): (r: Option<nat>)
    ensures r.Some? ==> r.value < |scopes| && dispatch in scopes[r.value].dispatches
    ensures r.None? ==> forall i :: 0 <= i < |scopes| ==> dispatch !in scopes[i].dispatches
  {
    if scopes == [] then None
    else
      var r := ForDispatch(scopes[..|scopes| - 1], dispatch);
      if r.Some? then r else if dispatch in scopes[|scopes| - 1].dispatches then Some(|scopes| - 1) else None
  }

  function AvailableRefusal(s: Scope, now: nat): Option<string> {
    if s.deadlineAt.Some? && now >= s.deadlineAt.value then Some("OWNER_PROGRESS_TIME_LIMIT")
    else if s.modelCalls >= s.maxModelCalls || s.toolCalls >= s.maxToolCalls then Some("OWNER_PROGRESS_CALL_LIMIT")
    else None
  }

  /** An operation is charged to its scope once, however often it is authorized. */
  function Consume(st: State, dispatch: nat, key: OperationKey, now: nat): Result<State> {
    var i := ForDispatch(st.scopes, dispatch);
    if i.None? then Ok(st)
    else
      var s := st.scopes[i.value];
      if key in s.operations then Ok(st)
      else if AvailableRefusal(s, now).Some? then Err(AvailableRefusal(s, now).value)
      else
        Ok(st.(scopes := st.scopes[i.value := s.(operations := s.operations + [key],
                                                 modelCalls := s.modelCalls + (if key.ModelKey? then 1 else 0),
                                                 toolCalls := s.toolCalls + (if key.ToolKey? then 1 else 0))]))
  }

  function StartWindow(st: State, dispatch: nat, now: nat): Result<State> {
    var i := ForDispatch(st.scopes, dispatch);
    if i.None? then Ok(st)
    else
      var s := st.scopes[i.value];
      var t := if s.startedAt.None? then s.(startedAt := Some(now), deadlineAt := Some(now + s.windowMs)) else s;
      if AvailableRefusal(t, now).Some? then Err(AvailableRefusal(t, now).value)
          else Ok(st.(scopes := st.scopes[i.value := t]))
  }

  /** What the plan knows about a node's earlier occurrence and about those it depends on. */
  datatype Placement = Placement(node: nat, once: bool, scheduledAt: nat, unsettledPrior: Option<nat>,
      origins: seq<nat>)

  function Resumable(scopes: seq<Scope>, node: nat): (r: Option<nat>)
    ensures r.Some? ==> r.value < |scopes|
  {
    if scopes == [] then None
    else
      var r := Resumable(scopes[..|scopes| - 1], node);
      if r.Some? then r else if node in scopes[|scopes| - 1].resume then Some(|scopes| - 1) else None
  }

  function WithKey(scopes: seq<Scope>, key: ScopeKey): (r: Option<nat>)
    ensures r.Some? ==> r.value < |scopes| && scopes[r.value].key == key
    ensures r.None? ==> forall i :: 0 <= i < |scopes| ==> scopes[i].key != key
  {
    if scopes == [] then None
    else
      var r := WithKey(scopes[..|scopes| - 1], key);
      if r.Some? then r else if scopes[|scopes| - 1].key == key then Some(|scopes| - 1) else None
  }

  /** The scopes of the dispatches a node depends on. */
  function Inherited(scopes: seq<Scope>, origins: seq<nat>): (r: seq<nat>)
    ensures forall i :: 0 <= i < |r| ==> r[i] < |scopes|
  {
    if origins == [] then []
    else
      var before := Inherited(scopes, origins[..|origins| - 1]);
      var i := ForDispatch(scopes, origins[|origins| - 1]);
      if i.Some? then before + [i.value] else before
  }

  function OnlyScheduled(scopes: seq<Scope>, found: seq<nat>): (r: seq<nat>)
    requires forall i :: 0 <= i < |found| ==> found[i] < |scopes|
    ensures forall i :: 0 <= i < |r| ==> r[i] < |scopes| && r[i] in found
  {
    if found == [] then []
    else
      var before := OnlyScheduled(scopes, found[..|found| - 1]);
      if scopes[found[|found| - 1]].key.Scheduled? then before + [found[|found| - 1]] else before
  }

  /** The scope a dispatch joins, if it is one that exists. */
  function Chosen(scopes: seq<Scope>, p: Placement): (r: Result<Option<nat>>)
    ensures r.Ok? && r.value.Some? ==> r.value.value < |scopes|
  {
    var resumed := Resumable(scopes, p.node);
    var prior := if p.unsettledPrior.Some? then ForDispatch(scopes, p.unsettledPrior.value) else None;
    var byKey := WithKey(scopes, if p.once then Once else Scheduled(p.node, p.scheduledAt));
    if resumed.Some? then Ok(resumed)
    else if prior.Some? then Ok(prior)
    else if p.once then
      var inherited := Inherited(scopes, p.origins);
      var scheduled := OnlyScheduled(scopes, inherited);
      if exists i, j ::
          0 <= i < |scheduled| && 0 <= j < |scheduled| && scheduled[i] != scheduled[j]
          then Err("OWNER_PROGRESS_BATCH_AMBIGUOUS")
      else if |scheduled| > 0 then Ok(Some(scheduled[0]))
      else if |inherited| > 0 then Ok(Some(inherited[0]))
      else Ok(byKey)
    else Ok(byKey)
  }

  function NewScope(key: ScopeKey): Scope {
    Scope(key, [], [], 0, 0, MODEL_CALLS, TOOL_CALLS, WINDOW_MS, None, None, {}, map[])
  }

  function Attach(st: State, dispatch: nat, p: Placement): Result<State> {
    if ForDispatch(st.scopes, dispatch).Some? then Ok(st)
    else
      var chosen := Chosen(st.scopes, p);
      if chosen.Err? then Err(chosen.error)
      else
        var scopes := if chosen.value.Some? then st.scopes
            else st.scopes + [NewScope(if p.once then Once else Scheduled(p.node, p.scheduledAt))];
        var i := if chosen.value.Some? then chosen.value.value else |st.scopes|;
        Ok(st.(scopes := scopes[i := scopes[i].(dispatches := scopes[i].dispatches + [dispatch],
            resume := scopes[i].resume - {p.node})]))
  }

  // ---- Gaps ----

  /** A new requirement starts from what a superseded criterion of the same requirement has used up. */
  function FreshGap(node: nat, predecessor: Option<Gap>): Gap {
    if predecessor.Some? then Gap([node], Open, predecessor.value.limit, predecessor.value.attempts, false)
    else Gap([node], Open, GAP_ATTEMPTS, [], false)
  }

  predicate Supersedes(gaps: Gaps, earlier: GapKey, key: GapKey) {
    earlier in gaps && gaps[earlier].superseded && earlier.Requirement? && key.Requirement?
    && earlier.node == key.node && earlier.requirement == key.requirement && earlier.scope == key.scope
  }

  /** `predecessor` is the superseded gap the table lists first, if there is one. */
  function TouchGap(gaps: Gaps, key: GapKey, node: nat, predecessor: Option<GapKey>): Gaps {
    if key in gaps then
      if node in gaps[key].nodes then gaps else gaps[key := gaps[key].(nodes := gaps[key].nodes + [node])]
    else gaps[key := FreshGap(node, if predecessor.Some? && Supersedes(gaps, predecessor.value, key)
        then Some(gaps[predecessor.value]) else None)]
  }

  predicate Attempted(attempts: seq<Attempt>, key: AttemptKey) {
    exists i :: 0 <= i < |attempts| && attempts[i].key == key
  }

  /** The fingerprints of the attempts by one method. */
  function ByMethod(attempts: seq<Attempt>, methodKey: nat): seq<Attempt> {
    if attempts == [] then []
    else
      var before := ByMethod(attempts[..|attempts| - 1], methodKey);
      if attempts[|attempts| - 1].methodKey == methodKey then before + [attempts[|attempts| - 1]] else before
  }

  predicate Repeating(attempts: seq<Attempt>) {
    |attempts| >= 2 && attempts[|attempts| - 1].fingerprint.Some?
        && attempts[|attempts| - 1].fingerprint == attempts[|attempts| - 2].fingerprint
  }

  function RecordAttempt(g: Gap, key: AttemptKey, methodKey: nat): Result<Gap> {
    if Attempted(g.attempts, key) then Ok(g)
    else if |g.attempts| >= g.limit then Err("OWNER_PROGRESS_GAP_LIMIT")
    else if Repeating(ByMethod(g.attempts, methodKey)) then Err("OWNER_PROGRESS_METHOD_EXHAUSTED")
    else Ok(g.(attempts := g.attempts + [Attempt(key, methodKey, None)], status := Open))
  }

  // ---- Admission of one call ----

  /** `node` is the node of the dispatch's occurrence, if it has one. */
  function BeforeModel(st: State, dispatch: nat, node: Option<nat>, attempt: nat, operation: nat, transport: int,
      now: nat): Result<State> {
    var i := ForDispatch(st.scopes, dispatch);
    if node.None? || i.None? then Ok(st)
    else if !(1 <= transport <= 2) then Err("OWNER_PROGRESS_INVALID")
    else
      var key := Output(node.value, st.scopes[i.value].key);
      var gaps := TouchGap(st.gaps, key, node.value, None);
      var g := RecordAttempt(gaps[key], ExecutionAttempt(attempt), attempt);
      if g.Err? then Err(g.error) else Consume(st.(gaps := gaps[key := g.value]), dispatch,
          ModelKey(operation, transport), now)
  }

  /** `gap` is the missing fact a tool call says it addresses, and the method it would use. */
  function BeforeTool(st: State, dispatch: nat, operation: nat, gap: Option<(GapKey, nat)>, now: nat): Result<State> {
    var c := Consume(st, dispatch, ToolKey(operation), now);
    if c.Err? then c
    else if gap.None? then c
    else if ForDispatch(st.scopes, dispatch).None? || gap.value.0 !in st.gaps then Err("OWNER_PROGRESS_INVALID")
    else
      var g := RecordAttempt(st.gaps[gap.value.0], ToolAttempt(operation), gap.value.1);
      if g.Err? then Err(g.error) else Ok(c.value.(gaps := st.gaps[gap.value.0 := g.value]))
  }

  /** The result of a tool becomes the fingerprint of the attempts it was made for. */
  function Fingerprinted(attempts: seq<Attempt>, key: AttemptKey, fingerprint: nat): (r: seq<Attempt>)
    ensures |r| == |attempts| && forall i :: 0 <= i < |r| ==> r[i].key == attempts[i].key
  {
    if attempts == [] then []
    else if attempts[0].key == key then [attempts[0].(fingerprint := Some(fingerprint))] + attempts[1..]
    else [attempts[0]] + Fingerprinted(attempts[1..], key, fingerprint)
  }

  function RecordTool(st: State, dispatch: nat, operation: nat, fingerprint: nat): State {
    if ForDispatch(st.scopes, dispatch).None? then st
    else
      st.(gaps := map k | k in st.gaps ::
          st.gaps[k].(attempts := Fingerprinted(st.gaps[k].attempts, ToolAttempt(operation), fingerprint)))
  }

  // ---- Evaluation ----

  /** One requirement of a policy, its criterion, and whether the evidence meets it. */
  datatype Check = Check(requirement: nat, criterion: nat, met: bool)

  datatype Policy = Policy(checks: seq<Check>, passPercent: nat)

  function Checks(policy: Option<Policy>): seq<Check> {
    if policy.Some? then policy.value.checks else []
  }

  function Met(cs: seq<Check>): (n: nat)
    ensures n <= |cs| && (n == |cs| <==> forall i :: 0 <= i < |cs| ==> cs[i].met)
  {
    if cs == [] then 0 else Met(cs[..|cs| - 1]) + if cs[|cs| - 1].met then 1 else 0
  }

  /** The gaps of a node's requirements after the evidence was looked at. */
  function CheckGaps(gaps: Gaps, node: nat, scope: ScopeKey, cs: seq<Check>,
      predecessors: map<GapKey, GapKey>): (r: Gaps)
    ensures forall k :: k in gaps ==> k in r
  {
    if cs == [] then gaps
    else
      var before, c := CheckGaps(gaps, node, scope, cs[..|cs| - 1], predecessors), cs[|cs| - 1];
      var key := Requirement(node, c.requirement, c.criterion, scope);
      var touched := TouchGap(before, key, node, if key in predecessors then Some(predecessors[key]) else None);
      touched[key := touched[key].(superseded := false, status := if c.met then Resolved else Open)]
  }

  /** The verdict before repeated and refused attempts are taken into account. */
  function FirstVerdict(root: Gap, policy: Option<Policy>, evidence: bool): Verdict {
    var cs := Checks(policy);
    if evidence && Met(cs) == |cs| then Completed
    else if evidence && policy.Some? && 100 * Met(cs) >= policy.value.passPercent * |cs| then Partial
    else if |root.attempts| < root.limit then Retry
    else if policy.Some? then Deferred
    else Blocked
  }

  /** `fingerprint` is the digest of the evidence, `refused` says that a progress limit stopped the attempt. */
  function Judge(root: Gap, policy: Option<Policy>, evidence: bool, fingerprint: nat, refused: bool): (Verdict, Gap) {
    var first := FirstVerdict(root, policy, evidence);
    var n := |root.attempts|;
    var attempts := if n == 0 then []
        else root.attempts[n - 1 := root.attempts[n - 1].(fingerprint := Some(fingerprint))];
    var second := if policy.Some? && first.Retry? && Repeating(attempts) then Deferred else first;
    var status := if second.Completed? then Resolved else if second.Deferred? then GapDeferred else Open;
    var final := if refused && second.Retry? then (if policy.Some? then Deferred else Blocked) else second;
    (final, root.(attempts := attempts, status := status))
  }

  function Evaluate(st: State, dispatch: nat, node: nat, policy: Option<Policy>, evidence: bool, fingerprint: nat,
      refused: bool,
                    predecessors: map<GapKey, GapKey>): State
  {
    var i := ForDispatch(st.scopes, dispatch);
    if i.None? then st
    else
      var s := st.scopes[i.value];
      var key := Output(node, s.key);
      var gaps := CheckGaps(TouchGap(st.gaps, key, node, None), node, s.key, Checks(policy), predecessors);
      var j := Judge(gaps[key], policy, evidence, fingerprint, refused);
      State(st.scopes[i.value := s.(outcomes := s.outcomes[dispatch := j.0])], gaps[key := j.1])
  }

  // ---- The owner's decisions ----

  function RequestContinuation(st: State, dispatch: nat, node: nat): State {
    var i := ForDispatch(st.scopes, dispatch);
    if i.None? then st else st.(scopes :=
        st.scopes[i.value := st.scopes[i.value].(resume := st.scopes[i.value].resume + {node})])
  }

  function ResetWindow(st: State, dispatch: nat): State {
    var i := ForDispatch(st.scopes, dispatch);
    if i.None? then st
    else
      var s := st.scopes[i.value];
      st.(scopes := st.scopes[i.value := s.(startedAt := None, deadlineAt := None, modelCalls := 0, toolCalls := 0,
          operations := [],
                                            maxModelCalls := MODEL_CALLS, maxToolCalls := TOOL_CALLS,
                                            windowMs := WINDOW_MS)])
  }

  function Supersede(st: State, key: GapKey): State {
    if key in st.gaps then st.(gaps := st.gaps[key := st.gaps[key].(superseded := true)]) else st
  }

  datatype Extension = Extension(modelCalls: Option<int>, toolCalls: Option<int>, minutes: Option<int>,
      gap: Option<GapKey>, attempts: Option<int>)

  predicate Within(v: Option<int>, most: int) {
    v.Some? ==> 0 < v.value <= most
  }

  function Amount(v: Option<int>): int {
    if v.Some? then v.value else 0
  }

  function Extend(st: State, dispatch: nat, x: Extension, now: nat): Result<State> {
    var i := ForDispatch(st.scopes, dispatch);
    if i.None? || !Within(x.modelCalls, 120) || !Within(x.toolCalls, 120) || !Within(x.minutes, 60)
        || !Within(x.attempts, 10)
       || (x.modelCalls.None? && x.toolCalls.None? && x.minutes.None? && x.attempts.None?)
       || (x.attempts.Some? && (x.gap.None? || x.gap.value !in st.gaps))
    then Err("OWNER_PROGRESS_INVALID")
    else
      var s := st.scopes[i.value];
      var late := if s.deadlineAt.Some? && s.deadlineAt.value > now then s.deadlineAt.value else now;
      var t := s.(maxModelCalls := s.maxModelCalls + Amount(x.modelCalls),
          maxToolCalls := s.maxToolCalls + Amount(x.toolCalls),
                  windowMs := if x.minutes.Some? && s.startedAt.None? then s.windowMs + x.minutes.value * 60_000
                  else s.windowMs,
                  deadlineAt := if x.minutes.Some? && s.startedAt.Some? then Some(late + x.minutes.value * 60_000)
                  else s.deadlineAt);
      Ok(State(st.scopes[i.value := t],
               if x.attempts.Some? then st.gaps[x.gap.value := st.gaps[x.gap.value].(limit := st.gaps[x.gap.value].limit
               + x.attempts.value)] else st.gaps))
  }

  // ---- What every operation keeps ----

  function Charged(keys: seq<OperationKey>, model: bool): nat {
    if keys == [] then 0 else Charged(keys[..|keys| - 1], model) + if keys[|keys| - 1].ModelKey? == model then 1 else 0
  }

  lemma {:induction false} ChargedAll(keys: seq<OperationKey>)
    ensures Charged(keys, true) + Charged(keys, false) == |keys|
  {
    if keys != [] {
      ChargedAll(keys[..|keys| - 1]);
    }
  }

  lemma ChargedAppend(keys: seq<OperationKey>, key: OperationKey)
    ensures Charged(keys + [key], true) == Charged(keys, true) + (if key.ModelKey? then 1 else 0)
    ensures Charged(keys + [key], false) == Charged(keys, false) + (if key.ToolKey? then 1 else 0)
  {
    assert (keys + [key])[..|keys|] == keys;
  }

  /** The counts are the numbers of distinct operations charged, and within the allowances. */
  ghost predicate ScopeOk(s: Scope) {
    && (forall i, j :: 0 <= i < j < |s.operations| ==> s.operations[i] != s.operations[j])
    && s.modelCalls == Charged(s.operations, true) && s.toolCalls == Charged(s.operations, false)
    && s.modelCalls <= s.maxModelCalls && s.toolCalls <= s.maxToolCalls
  }

  ghost predicate GapOk(g: Gap) {
    && |g.attempts| <= g.limit
    && forall i, j :: 0 <= i < j < |g.attempts| ==> g.attempts[i].key != g.attempts[j].key
  }

  ghost predicate OneScopeEach(scopes: seq<Scope>) {
    forall i, j, d :: 0 <= i < j < |scopes| && d in scopes[i].dispatches ==> d !in scopes[j].dispatches
  }

  ghost predicate Inv(st: State) {
    && (forall i :: 0 <= i < |st.scopes| ==> ScopeOk(st.scopes[i]))
    && (forall k :: k in st.gaps ==> GapOk(st.gaps[k]))
    && OneScopeEach(st.scopes)
  }

  lemma ScopeFrame(st: State, i: nat, s: Scope)
    requires Inv(st) && i < |st.scopes| && ScopeOk(s) && s.dispatches == st.scopes[i].dispatches
    ensures Inv(st.(scopes := st.scopes[i := s]))
  {
  }

  lemma ConsumeKeeps(st: State, dispatch: nat, key: OperationKey, now: nat)
    requires Inv(st) && Consume(st, dispatch, key, now).Ok?
    ensures Inv(Consume(st, dispatch, key, now).value)
  {
    var t := Consume(st, dispatch, key, now).value;
    if t != st {
      var i := ForDispatch(st.scopes, dispatch).value;
      ChargedAppend(st.scopes[i].operations, key);
      ScopeFrame(st, i, t.scopes[i]);
    }
  }

  lemma AttemptKeeps(g: Gap, key: AttemptKey, methodKey: nat)
    requires GapOk(g) && RecordAttempt(g, key, methodKey).Ok?
    ensures GapOk(RecordAttempt(g, key, methodKey).value)
        && Attempted(RecordAttempt(g, key, methodKey).value.attempts, key)
  {
    var h := RecordAttempt(g, key, methodKey).value;
    if h != g {
      assert h.attempts[|g.attempts|].key == key;
    }
  }

  lemma GapFrame(st: State, key: GapKey, g: Gap)
    requires Inv(st) && GapOk(g)
    ensures Inv(st.(gaps := st.gaps[key := g]))
  {
  }

  lemma TouchKeeps(gaps: Gaps, key: GapKey, node: nat, predecessor: Option<GapKey>)
    requires forall k :: k in gaps ==> GapOk(gaps[k])
    ensures forall k :: k in TouchGap(gaps, key, node, predecessor) ==> GapOk(TouchGap(gaps, key, node, predecessor)[k])
    ensures key in TouchGap(gaps, key, node, predecessor)
  {
  }

  lemma {:induction false} CheckGapsKeep(gaps: Gaps, node: nat, scope: ScopeKey, cs: seq<Check>,
      predecessors: map<GapKey, GapKey>)
    requires forall k :: k in gaps ==> GapOk(gaps[k])
    ensures forall k :: k in CheckGaps(gaps, node, scope, cs, predecessors) ==>
        GapOk(CheckGaps(gaps, node, scope, cs, predecessors)[k])
  {
    if cs != [] {
      var c := cs[|cs| - 1];
      CheckGapsKeep(gaps, node, scope, cs[..|cs| - 1], predecessors);
      var before := CheckGaps(gaps, node, scope, cs[..|cs| - 1], predecessors);
      var key := Requirement(node, c.requirement, c.criterion, scope);
      TouchKeeps(before, key, node, if key in predecessors then Some(predecessors[key]) else None);
    }
  }

  lemma BeforeModelKeeps(st: State, dispatch: nat, node: Option<nat>, attempt: nat, operation: nat, transport: int,
      now: nat)
    requires Inv(st) && BeforeModel(st, dispatch, node, attempt, operation, transport, now).Ok?
    ensures Inv(BeforeModel(st, dispatch, node, attempt, operation, transport, now).value)
  {
    var i := ForDispatch(st.scopes, dispatch);
    if node.Some? && i.Some? {
      var key := Output(node.value, st.scopes[i.value].key);
      TouchKeeps(st.gaps, key, node.value, None);
      var gaps := TouchGap(st.gaps, key, node.value, None);
      AttemptKeeps(gaps[key], ExecutionAttempt(attempt), attempt);
      var g := RecordAttempt(gaps[key], ExecutionAttempt(attempt), attempt).value;
      GapFrame(st.(gaps := gaps), key, g);
      ConsumeKeeps(st.(gaps := gaps[key := g]), dispatch, ModelKey(operation, transport), now);
    }
  }

  lemma BeforeToolKeeps(st: State, dispatch: nat, operation: nat, gap: Option<(GapKey, nat)>, now: nat)
    requires Inv(st) && BeforeTool(st, dispatch, operation, gap, now).Ok?
    ensures Inv(BeforeTool(st, dispatch, operation, gap, now).value)
  {
    ConsumeKeeps(st, dispatch, ToolKey(operation), now);
    if gap.Some? {
      var c := Consume(st, dispatch, ToolKey(operation), now).value;
      AttemptKeeps(st.gaps[gap.value.0], ToolAttempt(operation), gap.value.1);
      GapFrame(c, gap.value.0, RecordAttempt(st.gaps[gap.value.0], ToolAttempt(operation), gap.value.1).value);
    }
  }

  lemma JudgeKeeps(root: Gap, policy: Option<Policy>, evidence: bool, fingerprint: nat, refused: bool)
    requires GapOk(root)
    ensures GapOk(Judge(root, policy, evidence, fingerprint, refused).1)
  {
  }

  lemma EvaluateKeeps(st: State, dispatch: nat, node: nat, policy: Option<Policy>, evidence: bool, fingerprint: nat,
      refused: bool, predecessors: map<GapKey, GapKey>)
    requires Inv(st)
    ensures Inv(Evaluate(st, dispatch, node, policy, evidence, fingerprint, refused, predecessors))
  {
    var i := ForDispatch(st.scopes, dispatch);
    if i.Some? {
      var s := st.scopes[i.value];
      var key := Output(node, s.key);
      TouchKeeps(st.gaps, key, node, None);
      var touched := TouchGap(st.gaps, key, node, None);
      CheckGapsKeep(touched, node, s.key, Checks(policy), predecessors);
      var gaps := CheckGaps(touched, node, s.key, Checks(policy), predecessors);
      JudgeKeeps(gaps[key], policy, evidence, fingerprint, refused);
      GapFrame(st.(gaps := gaps), key, Judge(gaps[key], policy, evidence, fingerprint, refused).1);
    }
  }

  lemma AttachKeeps(st: State, dispatch: nat, p: Placement)
    requires Inv(st) && Attach(st, dispatch, p).Ok?
    ensures Inv(Attach(st, dispatch, p).value)
  {
    var t := Attach(st, dispatch, p).value;
    forall i | 0 <= i < |t.scopes| ensures ScopeOk(t.scopes[i]) {
      if i < |st.scopes| { assert ScopeOk(st.scopes[i]); }
    }
  }

  lemma ExtendKeeps(st: State, dispatch: nat, x: Extension, now: nat)
    requires Inv(st) && Extend(st, dispatch, x, now).Ok?
    ensures Inv(Extend(st, dispatch, x, now).value)
  {
    var i := ForDispatch(st.scopes, dispatch).value;
    ScopeFrame(st, i, Extend(st, dispatch, x, now).value.scopes[i]);
  }

  datatype Op =
    | AttachOp(dispatch: nat, placement: Placement)
    | StartOp(dispatch: nat, now: nat)
    | ModelOp(dispatch: nat, occurrence: Option<nat>, attempt: nat, operation: nat, transport: int, now: nat)
    | ToolOp(dispatch: nat, operation: nat, gap: Option<(GapKey, nat)>, now: nat)
    | ResultOp(dispatch: nat, operation: nat, fingerprint: nat)
    | EvaluateOp(dispatch: nat, node: nat, policy: Option<Policy>, evidence: bool, fingerprint: nat, refused: bool,
        predecessors: map<GapKey, GapKey>)
    | ContinueOp(dispatch: nat, node: nat)
    | ResetOp(dispatch: nat)
    | SupersedeOp(key: GapKey)
    | ExtendOp(dispatch: nat, extension: Extension, now: nat)

  function OrElse(r: Result<State>, st: State): State {
    if r.Ok? then r.value else st
  }

  function Step(st: State, op: Op): State {
    match op
    case AttachOp(d, p) => OrElse(Attach(st, d, p), st)
    case StartOp(d, now) => OrElse(StartWindow(st, d, now), st)
    case ModelOp(d, node, attempt, operation, transport, now) =>
        OrElse(BeforeModel(st, d, node, attempt, operation, transport, now), st)
    case ToolOp(d, operation, gap, now) => OrElse(BeforeTool(st, d, operation, gap, now), st)
    case ResultOp(d, operation, fingerprint) => RecordTool(st, d, operation, fingerprint)
    case EvaluateOp(d, node, policy, evidence, fingerprint, refused, predecessors) =>
      Evaluate(st, d, node, policy, evidence, fingerprint, refused, predecessors)
    case ContinueOp(d, node) => RequestContinuation(st, d, node)
    case ResetOp(d) => ResetWindow(st, d)
    case SupersedeOp(key) => Supersede(st, key)
    case ExtendOp(d, x, now) => OrElse(Extend(st, d, x, now), st)
  }

  function Run(ops: seq<Op>): State {
    if ops == [] then INITIAL else Step(Run(ops[..|ops| - 1]), ops[|ops| - 1])
  }

  lemma RecordToolKeeps(st: State, dispatch: nat, operation: nat, fingerprint: nat)
    requires Inv(st)
    ensures Inv(RecordTool(st, dispatch, operation, fingerprint))
  {
    var t := RecordTool(st, dispatch, operation, fingerprint);
    forall k | k in t.gaps ensures GapOk(t.gaps[k]) {
      assert GapOk(st.gaps[k]);
    }
  }

  lemma StepKeeps(st: State, op: Op)
    requires Inv(st)
    ensures Inv(Step(st, op))
  {
    match op
    case AttachOp(d, p) => if Attach(st, d, p).Ok? { AttachKeeps(st, d, p); }
    case StartOp(d, now) =>
      if ForDispatch(st.scopes, d).Some? && StartWindow(st, d, now).Ok? {
        ScopeFrame(st, ForDispatch(st.scopes, d).value,
            StartWindow(st, d, now).value.scopes[ForDispatch(st.scopes, d).value]);
      }
    case ModelOp(d, node, attempt, operation, transport, now) =>
      if BeforeModel(st, d, node, attempt, operation, transport, now).Ok? {
        BeforeModelKeeps(st, d, node, attempt, operation, transport, now);
      }
    case ToolOp(d, operation, gap, now) =>
      if BeforeTool(st, d, operation, gap, now).Ok? {
        BeforeToolKeeps(st, d, operation, gap, now);
      }
    case ResultOp(d, operation, fingerprint) => RecordToolKeeps(st, d, operation, fingerprint);
    case EvaluateOp(d, node, policy, evidence, fingerprint, refused, predecessors) =>
      EvaluateKeeps(st, d, node, policy, evidence, fingerprint, refused, predecessors);
    case ContinueOp(d, node) =>
      if ForDispatch(st.scopes, d).Some? {
        ScopeFrame(st, ForDispatch(st.scopes, d).value,
            RequestContinuation(st, d, node).scopes[ForDispatch(st.scopes, d).value]);
      }
    case ResetOp(d) =>
      if ForDispatch(st.scopes, d).Some? {
        ScopeFrame(st, ForDispatch(st.scopes, d).value, ResetWindow(st, d).scopes[ForDispatch(st.scopes, d).value]);
      }
    case SupersedeOp(key) => if key in st.gaps { GapFrame(st, key, st.gaps[key].(superseded := true)); }
    case ExtendOp(d, x, now) => if Extend(st, d, x, now).Ok? { ExtendKeeps(st, d, x, now); }
  }

  lemma {:induction false} RunKeepsInv(ops: seq<Op>)
    ensures Inv(Run(ops))
  {
    if ops != [] {
      RunKeepsInv(ops[..|ops| - 1]);
      StepKeeps(Run(ops[..|ops| - 1]), ops[|ops| - 1]);
    }
  }

  /** In every run each scope's calls are exactly its distinct operations, and neither kind exceeds its allowance; no
      missing fact has more attempts than its limit. */
  lemma CallsAreCounted(ops: seq<Op>)
    ensures forall i :: 0 <= i < |Run(ops).scopes| ==>
      var s := Run(ops).scopes[i];
      s.modelCalls + s.toolCalls == |s.operations| && s.modelCalls <= s.maxModelCalls && s.toolCalls <= s.maxToolCalls
      && forall x, y :: 0 <= x < y < |s.operations| ==> s.operations[x] != s.operations[y]
    ensures forall k :: k in Run(ops).gaps ==> |Run(ops).gaps[k].attempts| <= Run(ops).gaps[k].limit
  {
    RunKeepsInv(ops);
    forall i | 0 <= i < |Run(ops).scopes| ensures Run(ops).scopes[i].modelCalls + Run(ops).scopes[i].toolCalls
        == |Run(ops).scopes[i].operations| {
      assert ScopeOk(Run(ops).scopes[i]);
      ChargedAll(Run(ops).scopes[i].operations);
    }
  }

  /** What the owner added to the limit of an output over a run. */
  function Granted(ops: seq<Op>, key: GapKey): nat {
    if ops == [] then 0
    else
      var before, op := ops[..|ops| - 1], ops[|ops| - 1];
      Granted(before, key)
      + if op.ExtendOp? && Extend(Run(before), op.dispatch, op.extension, op.now).Ok? && op.extension.attempts.Some?
          && op.extension.gap == Some(key)
        then op.extension.attempts.value else 0
  }

  lemma StepLimit(st: State, op: Op, node: nat, scope: ScopeKey)
    ensures
      var key, t := Output(node, scope), Step(st, op);
      key in t.gaps ==>
        t.gaps[key].limit == (if key in st.gaps then st.gaps[key].limit else GAP_ATTEMPTS)
          + if op.ExtendOp? && Extend(st, op.dispatch, op.extension, op.now).Ok? && op.extension.attempts.Some?
              && op.extension.gap == Some(key)
            then op.extension.attempts.value else 0
    ensures Output(node, scope) in st.gaps ==> Output(node, scope) in Step(st, op).gaps
    ensures (op.ExtendOp? && Extend(st, op.dispatch, op.extension, op.now).Ok? && op.extension.attempts.Some?
             && op.extension.gap == Some(Output(node, scope))) ==>
      Output(node, scope) in st.gaps
  {
    if op.EvaluateOp? {
      EvaluateLimit(st, op, node, scope);
    }
  }

  lemma EvaluateLimit(st: State, op: Op, node: nat, scope: ScopeKey)
    requires op.EvaluateOp?
    ensures
      var key, t := Output(node, scope), Step(st, op);
      (key in st.gaps ==> key in t.gaps) && (key in t.gaps ==>
          t.gaps[key].limit == if key in st.gaps then st.gaps[key].limit else GAP_ATTEMPTS)
  {
    var i := ForDispatch(st.scopes, op.dispatch);
    if i.Some? {
      var s := st.scopes[i.value];
      CheckGapsLimits(TouchGap(st.gaps, Output(op.node, s.key), op.node, None), op.node, s.key, Checks(op.policy),
          op.predecessors, node, scope);
    }
  }

  lemma {:induction false} CheckGapsLimits(gaps: Gaps, node: nat, scope: ScopeKey, cs: seq<Check>,
      predecessors: map<GapKey, GapKey>, n: nat, sc: ScopeKey)
    ensures
      var r := CheckGaps(gaps, node, scope, cs, predecessors);
      (Output(n, sc) in r <==>
          Output(n, sc) in gaps) && (Output(n, sc) in gaps ==> r[Output(n, sc)] == gaps[Output(n, sc)])
  {
    if cs != [] {
      CheckGapsLimits(gaps, node, scope, cs[..|cs| - 1], predecessors, n, sc);
    }
  }

  lemma {:induction false} OutputLimit(ops: seq<Op>, node: nat, scope: ScopeKey)
    ensures Output(node, scope) in Run(ops).gaps ==>
        Run(ops).gaps[Output(node, scope)].limit == GAP_ATTEMPTS + Granted(ops, Output(node, scope))
    ensures Output(node, scope) !in Run(ops).gaps ==> Granted(ops, Output(node, scope)) == 0
  {
    if ops != [] {
      var before, op := ops[..|ops| - 1], ops[|ops| - 1];
      OutputLimit(before, node, scope);
      StepLimit(Run(before), op, node, scope);
    }
  }

  /** However often a node is retried, its output is attempted at most three times, and once more for each attempt the
      owner grants. */
  lemma AttemptsAreBounded(ops: seq<Op>, node: nat, scope: ScopeKey)
    requires Output(node, scope) in Run(ops).gaps
    ensures |Run(ops).gaps[Output(node, scope)].attempts| <= GAP_ATTEMPTS + Granted(ops, Output(node, scope))
  {
    RunKeepsInv(ops);
    OutputLimit(ops, node, scope);
    assert GapOk(Run(ops).gaps[Output(node, scope)]);
  }

  lemma {:induction false} ByMethodNone(attempts: seq<Attempt>, methodKey: nat)
    requires forall i :: 0 <= i < |attempts| ==> attempts[i].methodKey != methodKey
    ensures ByMethod(attempts, methodKey) == []
  {
    if attempts != [] {
      ByMethodNone(attempts[..|attempts| - 1], methodKey);
    }
  }

  /** No attempt was made under the key or by the method. */
  ghost predicate Untried(g: Gap, attempt: nat) {
    forall i :: 0 <= i < |g.attempts| ==>
        g.attempts[i].key != ExecutionAttempt(attempt) && g.attempts[i].methodKey != attempt
  }

  lemma RoomForAttempt(g: Gap, attempt: nat)
    requires Untried(g, attempt)
    ensures RecordAttempt(g, ExecutionAttempt(attempt), attempt).Ok? <==> |g.attempts| < g.limit
  {
    ByMethodNone(g.attempts, attempt);
  }

  /** The rows an evaluation stores say RETRY, exactly: the output is missing something, is not good enough in part, has
      attempts left, did not merely repeat itself under a policy, and was not stopped by a progress limit. Its gap is
      then open and admits the next attempt. */
  lemma EvaluationRetriesExactly(st: State, dispatch: nat, node: nat, policy: Option<Policy>, evidence: bool,
      fingerprint: nat, refused: bool, predecessors: map<GapKey, GapKey>)
    requires ForDispatch(st.scopes, dispatch).Some?
    ensures
      var i := ForDispatch(st.scopes, dispatch).value;
      var t := Evaluate(st, dispatch, node, policy, evidence, fingerprint, refused, predecessors);
      var cs, key := Checks(policy), Output(node, st.scopes[i].key);
      && |t.scopes| == |st.scopes| && dispatch in t.scopes[i].outcomes && key in t.gaps && var g := t.gaps[key];
      && (t.scopes[i].outcomes[dispatch].Retry? <==>
            && (!evidence || exists n :: 0 <= n < |cs| && !cs[n].met)
            && !(evidence && policy.Some? && 100 * Met(cs) >= policy.value.passPercent * |cs|)
            && |g.attempts| < g.limit
            && !(policy.Some? && Repeating(g.attempts))
            && !refused)
      && (t.scopes[i].outcomes[dispatch].Retry? ==>
            && g.status.Open?
            && forall a :: Untried(g, a) ==> RecordAttempt(g, ExecutionAttempt(a), a).Ok?)
  {
    var i := ForDispatch(st.scopes, dispatch).value;
    var t := Evaluate(st, dispatch, node, policy, evidence, fingerprint, refused, predecessors);
    var key := Output(node, st.scopes[i].key);
    CheckGapsLimits(TouchGap(st.gaps, key, node, None), node, st.scopes[i].key, Checks(policy), predecessors, node,
        st.scopes[i].key);
    forall a | Untried(t.gaps[key], a)
      ensures RecordAttempt(t.gaps[key], ExecutionAttempt(a), a).Ok? <==> |t.gaps[key].attempts| < t.gaps[key].limit
    {
      RoomForAttempt(t.gaps[key], a);
    }
  }

  /** An admitted model call is on record twice over: its operation is charged and its attempt counted. Admitting it
      again changes nothing. */
  lemma AdmittedCallIsOnRecord(st: State, dispatch: nat, node: nat, attempt: nat, operation: nat, transport: int,
      now: nat, later: nat)
    requires Inv(st) && ForDispatch(st.scopes, dispatch).Some?
        && BeforeModel(st, dispatch, Some(node), attempt, operation, transport, now).Ok?
    ensures
      var t, i := BeforeModel(st, dispatch, Some(node), attempt, operation, transport, now).value,
          ForDispatch(st.scopes, dispatch).value;
      && 1 <= transport <= 2 && ModelKey(operation, transport) in t.scopes[i].operations
      && Output(node, st.scopes[i].key) in t.gaps
          && Attempted(t.gaps[Output(node, st.scopes[i].key)].attempts, ExecutionAttempt(attempt))
      && BeforeModel(t, dispatch, Some(node), attempt, operation, transport, later) == Ok(t)
  {
    var i := ForDispatch(st.scopes, dispatch).value;
    var key := Output(node, st.scopes[i].key);
    TouchKeeps(st.gaps, key, node, None);
    var gaps := TouchGap(st.gaps, key, node, None);
    AttemptKeeps(gaps[key], ExecutionAttempt(attempt), attempt);
    var t := BeforeModel(st, dispatch, Some(node), attempt, operation, transport, now).value;
    SameDispatches(st.scopes, t.scopes, dispatch);
    assert t.gaps[key := t.gaps[key]] == t.gaps;
  }

  lemma {:induction false} SameDispatches(before: seq<Scope>, after: seq<Scope>, dispatch: nat)
    requires |after| == |before| && forall i :: 0 <= i < |before| ==> after[i].dispatches == before[i].dispatches
    ensures ForDispatch(after, dispatch) == ForDispatch(before, dispatch)
  {
    if before != [] {
      SameDispatches(before[..|before| - 1], after[..|after| - 1], dispatch);
    }
  }

  /** A retry joins the scope of the occurrence it retries, so its allowances are not refilled; a dispatch joins one
      scope, once. */
  lemma RetrySharesItsScope(st: State, dispatch: nat, p: Placement)
    requires Inv(st) && ForDispatch(st.scopes, dispatch).None? && Resumable(st.scopes, p.node).None?
    requires p.unsettledPrior.Some? && ForDispatch(st.scopes, p.unsettledPrior.value).Some?
    ensures
      var r, i := Attach(st, dispatch, p), ForDispatch(st.scopes, p.unsettledPrior.value).value;
      && r.Ok? && ForDispatch(r.value.scopes, dispatch) == Some(i)
      && r.value.scopes[i] == st.scopes[i].(dispatches := st.scopes[i].dispatches + [dispatch],
          resume := st.scopes[i].resume - {p.node})
      && Attach(r.value, dispatch, p) == r
  {
    var t, i := Attach(st, dispatch, p).value, ForDispatch(st.scopes, p.unsettledPrior.value).value;
    AttachKeeps(st, dispatch, p);
    assert dispatch in t.scopes[i].dispatches;
    var j := ForDispatch(t.scopes, dispatch).value;
    assert i < j || j < i || i == j;
  }
}
