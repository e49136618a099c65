/** The progress service as it runs: scope and gap records are read, changed and saved, and put back when a transaction
    throws. */
module ProgressService {
  import opened Wrappers
  import opened P = Progress

  lemma {:induction false} FirstIsFingerprinted(attempts: seq<Attempt>, i: nat, key: AttemptKey, fingerprint: nat)
    requires i < |attempts| && attempts[i].key == key && forall j :: 0 <= j < i ==> attempts[j].key != key
    ensures Fingerprinted(attempts, key, fingerprint) == attempts[i := attempts[i].(fingerprint := Some(fingerprint))]
  {
    if i > 0 {
      FirstIsFingerprinted(attempts[1..], i - 1, key, fingerprint);
    }
  }

  lemma {:induction false} NothingIsFingerprinted(attempts: seq<Attempt>, key: AttemptKey, fingerprint: nat)
    requires forall j :: 0 <= j < |attempts| ==> attempts[j].key != key
    ensures Fingerprinted(attempts, key, fingerprint) == attempts
  {
    if attempts != [] {
      NothingIsFingerprinted(attempts[1..], key, fingerprint);
      assert attempts == [attempts[0]] + attempts[1..];
    }
  }

  class CompanyProgressService {
    var scopes: seq<Scope>
    var gaps: Gaps

    ghost function Rows(): State
      reads this
    {
      State(scopes, gaps)
    }

    constructor ()
      ensures Rows() == INITIAL
    {
      scopes, gaps := [], map[];
    }

    method Rollback(s: seq<Scope>, g: Gaps)
      modifies this
      ensures Rows() == State(s, g)
    {
      scopes, gaps := s, g;
    }

    /** The scope a dispatch belongs to. */
    method FindScope(dispatch: nat) returns (r: Option<nat>)
      ensures r == ForDispatch(scopes, dispatch)
    {
      r := None;
      for i := 0 to |scopes|
        invariant r == ForDispatch(scopes[..i], dispatch)
      {
        assert scopes[..i + 1][..i] == scopes[..i];
        if r.None? && dispatch in scopes[i].dispatches {
          r := Some(i);
        }
      }
      assert scopes[..|scopes|] == scopes;
    }

    method FindResumable(node: nat) returns (r: Option<nat>)
      ensures r == Resumable(scopes, node)
    {
      r := None;
      for i := 0 to |scopes|
        invariant r == Resumable(scopes[..i], node)
      {
        assert scopes[..i + 1][..i] == scopes[..i];
        if r.None? && node in scopes[i].resume {
          r := Some(i);
        }
      }
      assert scopes[..|scopes|] == scopes;
    }

    method FindKey(key: ScopeKey) returns (r: Option<nat>)
      ensures r == WithKey(scopes, key)
    {
      r := None;
      for i := 0 to |scopes|
        invariant r == WithKey(scopes[..i], key)
      {
        assert scopes[..i + 1][..i] == scopes[..i];
        if r.None? && scopes[i].key == key {
          r := Some(i);
        }
      }
      assert scopes[..|scopes|] == scopes;
    }

    /** The scopes of the dispatches a node depends on, and those among them that belong to a schedule. */
    method Inherit(origins: seq<nat>) returns (inherited: seq<nat>, scheduled: seq<nat>)
      ensures inherited == Inherited(scopes, origins) && scheduled == OnlyScheduled(scopes, inherited)
    {
      hide ForDispatch;
      inherited, scheduled := [], [];
      for i := 0 to |origins|
        invariant inherited == Inherited(scopes, origins[..i])
        invariant scheduled == OnlyScheduled(scopes, inherited)
      {
        assert origins[..i + 1][..i] == origins[..i];
        var origin := FindScope(origins[i]);
        if origin.Some? {
          assert (inherited + [origin.value])[..|inherited|] == inherited;
          inherited := inherited + [origin.value];
          if scopes[origin.value].key.Scheduled? {
            scheduled := scheduled + [origin.value];
          }
        }
      }
      assert origins[..|origins|] == origins;
    }

    method Choose(p: Placement) returns (r: Result<Option<nat>>)
      ensures r == Chosen(scopes, p)
    {
      hide ForDispatch, WithKey, Resumable, Inherited, OnlyScheduled, NewScope;
      var resumed := FindResumable(p.node);
      if resumed.Some? {
        return Ok(resumed);
      }
      if p.unsettledPrior.Some? {
        var prior := FindScope(p.unsettledPrior.value);
        if prior.Some? {
          return Ok(prior);
        }
      }
      if p.once {
        var inherited, scheduled := Inherit(p.origins);
        if exists i, j :: 0 <= i < |scheduled| && 0 <= j < |scheduled| && scheduled[i] != scheduled[j] {
          return Err("OWNER_PROGRESS_BATCH_AMBIGUOUS");
        }
        if |scheduled| > 0 {
          return Ok(Some(scheduled[0]));
        }
        if |inherited| > 0 {
          return Ok(Some(inherited[0]));
        }
      }
      var byKey := FindKey(if p.once then Once else Scheduled(p.node, p.scheduledAt));
      return Ok(byKey);
    }

    method Attach(dispatch: nat, p: Placement) returns (error: Option<string>)
      modifies this
      ensures match P.Attach(old(Rows()), dispatch, p)
              case Ok(t) => error.None? && Rows() == t
              case Err(e) => error == Some(e) && Rows() == old(Rows())
    {
      var existing := FindScope(dispatch);
      if existing.Some? {
        return None;
      }
      var chosen := Choose(p);
      if chosen.Err? {
        return Some(chosen.error);
      }
      var i := |scopes|;
      if chosen.value.Some? {
        i := chosen.value.value;
      } else {
        scopes := scopes + [NewScope(if p.once then Once else Scheduled(p.node, p.scheduledAt))];
      }
      scopes := scopes[i := scopes[i].(dispatches := scopes[i].dispatches + [dispatch],
          resume := scopes[i].resume - {p.node})];
      return None;
    }

    method StartWindow(dispatch: nat, now: nat) returns (error: Option<string>)
      modifies this
      ensures match P.StartWindow(old(Rows()), dispatch, now)
              case Ok(t) => error.None? && Rows() == t
              case Err(e) => error == Some(e) && Rows() == old(Rows())
    {
      var i := FindScope(dispatch);
      if i.None? {
        return None;
      }
      var saved := scopes;
      var scope := scopes[i.value];
      if scope.startedAt.None? {
        scope := scope.(startedAt := Some(now), deadlineAt := Some(now + scope.windowMs));
      }
      scopes := scopes[i.value := scope];
      error := AvailableRefusal(scope, now);
      if error.Some? {
        Rollback(saved, gaps);
      }
    }

    method Consume(dispatch: nat, key: OperationKey, now: nat) returns (error: Option<string>)
      modifies this
      ensures match P.Consume(old(Rows()), dispatch, key, now)
              case Ok(t) => error.None? && Rows() == t
              case Err(e) => error == Some(e) && Rows() == old(Rows())
    {
      var i := FindScope(dispatch);
      if i.None? || key in scopes[i.value].operations {
        return None;
      }
      var scope := scopes[i.value];
      error := AvailableRefusal(scope, now);
      if error.Some? {
        return;
      }
      scope := scope.(operations := scope.operations + [key]);
      if key.ModelKey? {
        scope := scope.(modelCalls := scope.modelCalls + 1);
      } else {
        scope := scope.(toolCalls := scope.toolCalls + 1);
      }
      scopes := scopes[i.value := scope];
    }

    method Touch(key: GapKey, node: nat, predecessor: Option<GapKey>)
      modifies this
      ensures gaps == TouchGap(old(gaps), key, node, predecessor) && scopes == old(scopes) && key in gaps
    {
      if key in gaps {
        if node !in gaps[key].nodes {
          gaps := gaps[key := gaps[key].(nodes := gaps[key].nodes + [node])];
        }
        return;
      }
      var gap := Gap([node], Open, GAP_ATTEMPTS, [], false);
      if predecessor.Some? && Supersedes(gaps, predecessor.value, key) {
        gap := gap.(limit := gaps[predecessor.value].limit, attempts := gaps[predecessor.value].attempts);
      }
      gaps := gaps[key := gap];
    }

    /** The attempts of one method, in order. */
    method Filter(attempts: seq<Attempt>, methodKey: nat) returns (r: seq<Attempt>)
      ensures r == ByMethod(attempts, methodKey)
    {
      r := [];
      for i := 0 to |attempts|
        invariant r == ByMethod(attempts[..i], methodKey)
      {
        assert attempts[..i + 1][..i] == attempts[..i];
        if attempts[i].methodKey == methodKey {
          r := r + [attempts[i]];
        }
      }
      assert attempts[..|attempts|] == attempts;
    }

    method RecordAttempt(gap: GapKey, key: AttemptKey, methodKey: nat) returns (error: Option<string>)
      requires gap in gaps
      modifies this
      ensures match P.RecordAttempt(old(gaps)[gap], key, methodKey)
              case Ok(g) => error.None? && gaps == old(gaps)[gap := g] && scopes == old(scopes)
              case Err(e) => error == Some(e) && Rows() == old(Rows())
    {
      var latest := gaps[gap];
      if Attempted(latest.attempts, key) {
        return None;
      }
      if |latest.attempts| >= latest.limit {
        return Some("OWNER_PROGRESS_GAP_LIMIT");
      }
      var last := Filter(latest.attempts, methodKey);
      if Repeating(last) {
        return Some("OWNER_PROGRESS_METHOD_EXHAUSTED");
      }
      gaps := gaps[gap := latest.(attempts := latest.attempts + [Attempt(key, methodKey, None)], status := Open)];
      return None;
    }

    method BeforeModel(dispatch: nat, node: Option<nat>, attempt: nat, operation: nat, transport: int, now: nat)
        returns (error: Option<string>)
      modifies this
      ensures match P.BeforeModel(old(Rows()), dispatch, node, attempt, operation, transport, now)
              case Ok(t) => error.None? && Rows() == t
              case Err(e) => error == Some(e) && Rows() == old(Rows())
    {
      var i := FindScope(dispatch);
      if node.None? || i.None? {
        return None;
      }
      if !(1 <= transport <= 2) {
        return Some("OWNER_PROGRESS_INVALID");
      }
      var savedScopes, savedGaps := scopes, gaps;
      var key := Output(node.value, scopes[i.value].key);
      Touch(key, node.value, None);
      error := RecordAttempt(key, ExecutionAttempt(attempt), attempt);
      if error.None? {
        error := Consume(dispatch, ModelKey(operation, transport), now);
      }
      if error.Some? {
        Rollback(savedScopes, savedGaps);
      }
    }

    method BeforeTool(dispatch: nat, operation: nat, gap: Option<(GapKey, nat)>, now: nat)
        returns (error: Option<string>)
      modifies this
      ensures match P.BeforeTool(old(Rows()), dispatch, operation, gap, now)
              case Ok(t) => error.None? && Rows() == t
              case Err(e) => error == Some(e) && Rows() == old(Rows())
    {
      var savedScopes, savedGaps := scopes, gaps;
      var i := FindScope(dispatch);
      error := Consume(dispatch, ToolKey(operation), now);
      if error.Some? || gap.None? {
        return;
      }
      if i.None? || gap.value.0 !in gaps {
        error := Some("OWNER_PROGRESS_INVALID");
      } else {
        error := RecordAttempt(gap.value.0, ToolAttempt(operation), gap.value.1);
      }
      if error.Some? {
        Rollback(savedScopes, savedGaps);
      }
    }

    /** Gives the first attempt made by an operation the digest of its result. */
    method Fingerprint(attempts: seq<Attempt>, key: AttemptKey, fingerprint: nat) returns (r: seq<Attempt>)
      ensures r == Fingerprinted(attempts, key, fingerprint)
    {
      hide Fingerprinted;
      for i := 0 to |attempts|
        invariant forall j :: 0 <= j < i ==> attempts[j].key != key
      {
        if attempts[i].key == key {
          FirstIsFingerprinted(attempts, i, key, fingerprint);
          return attempts[i := attempts[i].(fingerprint := Some(fingerprint))];
        }
      }
      NothingIsFingerprinted(attempts, key, fingerprint);
      r := attempts;
    }

    method RecordTool(dispatch: nat, operation: nat, fingerprint: nat)
      modifies this
      ensures Rows() == P.RecordTool(old(Rows()), dispatch, operation, fingerprint)
    {
      var i := FindScope(dispatch);
      if i.None? {
        return;
      }
      ghost var goal := P.RecordTool(Rows(), dispatch, operation, fingerprint).gaps;
      var rest := gaps.Keys;
      while rest != {}
        invariant scopes == old(scopes) && gaps.Keys == old(gaps).Keys && rest <= gaps.Keys
        invariant forall k :: k in gaps ==> gaps[k] == if k in rest then old(gaps)[k] else goal[k]
        decreases rest
      {
        var k :| k in rest;
        rest := rest - {k};
        var attempts := Fingerprint(gaps[k].attempts, ToolAttempt(operation), fingerprint);
        gaps := gaps[k := gaps[k].(attempts := attempts)];
      }
    }

    /** Brings the gaps of a node's requirements up to date with the evidence. */
    method CheckRequirements(node: nat, scope: ScopeKey, cs: seq<Check>, predecessors: map<GapKey, GapKey>)
        returns (met: nat)
      modifies this
      ensures met == Met(cs) && scopes == old(scopes) && gaps == CheckGaps(old(gaps), node, scope, cs, predecessors)
    {
      hide TouchGap;
      met := 0;
      for c := 0 to |cs|
        invariant met == Met(cs[..c]) && scopes == old(scopes)
        invariant gaps == CheckGaps(old(gaps), node, scope, cs[..c], predecessors)
      {
        assert cs[..c + 1][..c] == cs[..c];
        var requirement := Requirement(node, cs[c].requirement, cs[c].criterion, scope);
        Touch(requirement, node, if requirement in predecessors then Some(predecessors[requirement]) else None);
        var status := Open;
        if cs[c].met {
          met := met + 1;
          status := Resolved;
        }
        gaps := gaps[requirement := gaps[requirement].(superseded := false, status := status)];
      }
      assert cs[..|cs|] == cs;
    }

    method Weigh(root: Gap, policy: Option<Policy>, evidence: bool, met: nat, fingerprint: nat, refused: bool)
        returns (state: Verdict, current: Gap)
      requires met == Met(Checks(policy))
      ensures (state, current) == Judge(root, policy, evidence, fingerprint, refused)
    {
      current, state := root, Completed;
      var total := |Checks(policy)|;
      if !evidence || met < total {
        if evidence && policy.Some? && 100 * met >= policy.value.passPercent * total {
          state := Partial;
        } else if |current.attempts| < current.limit {
          state := Retry;
        } else {
          state := if policy.Some? then Deferred else Blocked;
        }
      }
      var n := |current.attempts|;
      if n > 0 {
        current := current.(attempts :=
            current.attempts[n - 1 := current.attempts[n - 1].(fingerprint := Some(fingerprint))]);
      }
      if policy.Some? && state.Retry? && Repeating(current.attempts) {
        state := Deferred;
      }
      current := current.(status := if state.Completed? then Resolved else if state.Deferred? then GapDeferred
          else Open);
      if refused && state.Retry? {
        state := if policy.Some? then Deferred else Blocked;
      }
    }

    method Evaluate(dispatch: nat, node: nat, policy: Option<Policy>, evidence: bool, fingerprint: nat, refused: bool,
                    predecessors: map<GapKey, GapKey>) returns (verdict: Option<Verdict>)
      modifies this
      ensures Rows() == P.Evaluate(old(Rows()), dispatch, node, policy, evidence, fingerprint, refused, predecessors)
      ensures verdict.Some? ==>
          exists i ::
          0 <= i < |scopes| && dispatch in scopes[i].outcomes && verdict == Some(scopes[i].outcomes[dispatch])
    {
      var i := FindScope(dispatch);
      if i.None? {
        return None;
      }
      var scope := scopes[i.value];
      var key := Output(node, scope.key);
      Touch(key, node, None);
      var met := CheckRequirements(node, scope.key, Checks(policy), predecessors);
      var state, current := Weigh(gaps[key], policy, evidence, met, fingerprint, refused);
      gaps := gaps[key := current];
      scopes := scopes[i.value := scope.(outcomes := scope.outcomes[dispatch := state])];
      assert scopes[i.value].outcomes[dispatch] == state;
      verdict := Some(state);
    }

    method RequestContinuation(dispatch: nat, node: nat)
      modifies this
      ensures Rows() == P.RequestContinuation(old(Rows()), dispatch, node)
    {
      var i := FindScope(dispatch);
      if i.Some? {
        scopes := scopes[i.value := scopes[i.value].(resume := scopes[i.value].resume + {node})];
      }
    }

    method Supersede(key: GapKey)
      modifies this
      ensures Rows() == P.Supersede(old(Rows()), key)
    {
      if key in gaps {
        gaps := gaps[key := gaps[key].(superseded := true)];
      }
    }

    method ResetWindow(dispatch: nat)
      modifies this
      ensures Rows() == P.ResetWindow(old(Rows()), dispatch)
    {
      var i := FindScope(dispatch);
      if i.None? {
        return;
      }
      var scope := scopes[i.value].(startedAt := None, deadlineAt := None, modelCalls := 0, toolCalls := 0,
          operations := []);
      scope := scope.(maxModelCalls := MODEL_CALLS, maxToolCalls := TOOL_CALLS, windowMs := WINDOW_MS);
      scopes := scopes[i.value := scope];
    }

    method Extend(dispatch: nat, x: Extension, now: nat) returns (error: Option<string>)
      modifies this
      ensures match P.Extend(old(Rows()), dispatch, x, now)
              case Ok(t) => error.None? && Rows() == t
              case Err(e) => error == Some(e) && Rows() == old(Rows())
    {
      var i := FindScope(dispatch);
      if i.None? || !Within(x.modelCalls, 120) || !Within(x.toolCalls, 120) || !Within(x.minutes, 60)
          || !Within(x.attempts, 10) {
        return Some("OWNER_PROGRESS_INVALID");
      }
      if x.modelCalls.None? && x.toolCalls.None? && x.minutes.None? && x.attempts.None? {
        return Some("OWNER_PROGRESS_INVALID");
      }
      var scope := scopes[i.value];
      if x.modelCalls.Some? {
        scope := scope.(maxModelCalls := scope.maxModelCalls + x.modelCalls.value);
      }
      if x.toolCalls.Some? {
        scope := scope.(maxToolCalls := scope.maxToolCalls + x.toolCalls.value);
      }
      if x.minutes.Some? {
        if scope.startedAt.None? {
          scope := scope.(windowMs := scope.windowMs + x.minutes.value * 60_000);
        } else {
          var late := if scope.deadlineAt.Some? && scope.deadlineAt.value > now then scope.deadlineAt.value else now;
          scope := scope.(deadlineAt := Some(late + x.minutes.value * 60_000));
        }
      }
      if x.attempts.Some? {
        if x.gap.None? || x.gap.value !in gaps {
          return Some("OWNER_PROGRESS_INVALID");
        }
        gaps := gaps[x.gap.value := gaps[x.gap.value].(limit := gaps[x.gap.value].limit + x.attempts.value)];
      }
      scopes := scopes[i.value := scope];
      return None;
    }
  }
}
