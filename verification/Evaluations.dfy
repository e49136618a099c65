/** What the evaluation of an output decides (company_progress_service.ts), said of the evidence, the requirements met
    and the attempts on record. */
module Evaluations {
  import opened Wrappers
  import opened Progress

  /** The requirements the evidence meets. */
  ghost function Satisfied(cs: seq<Check>): set<nat> {
    set i: nat | i < |cs| && cs[i].met
  }

  lemma {:induction false} MetIsCount(cs: seq<Check>)
    ensures Met(cs) == |Satisfied(cs)|
  {
    if cs != [] {
      var n := |cs| - 1;
      MetIsCount(cs[..n]);
      assert Satisfied(cs) == if cs[n].met then Satisfied(cs[..n]) + {n} else Satisfied(cs[..n]);
    } else {
      assert Satisfied(cs) == {};
    }
  }

  /** Everything asked for is there. */
  ghost predicate Complete(policy: Option<Policy>, evidence: bool) {
    evidence && (policy.Some? ==> forall i :: 0 <= i < |policy.value.checks| ==> policy.value.checks[i].met)
  }

  /** Enough of it is there for the policy. */
  ghost predicate Enough(policy: Option<Policy>, evidence: bool) {
    && evidence && policy.Some?
    && 100 * |Satisfied(policy.value.checks)| >= policy.value.passPercent * |policy.value.checks|
  }

  /** Another attempt is allowed. */
  predicate Left(g: Gap) {
    |g.attempts| < g.limit
  }

  /** The last two attempts brought the same. */
  predicate Stuck(g: Gap) {
    && |g.attempts| >= 2 && g.attempts[|g.attempts| - 1].fingerprint.Some?
    && g.attempts[|g.attempts| - 2].fingerprint == g.attempts[|g.attempts| - 1].fingerprint
  }

  /** The verdict, and what becomes of the missing output. */
  ghost predicate Decided(policy: Option<Policy>, evidence: bool, refused: bool, g: Gap, verdict: Verdict) {
    var missing := !Complete(policy, evidence) && !Enough(policy, evidence);
    && (verdict.Completed? <==> Complete(policy, evidence))
    && (verdict.Partial? <==> !Complete(policy, evidence) && Enough(policy, evidence))
    && (verdict.Retry? <==> missing && Left(g) && !(policy.Some? && Stuck(g)) && !refused)
    && (verdict.Deferred? <==> missing && policy.Some? && (!Left(g) || Stuck(g) || refused))
    && (verdict.Blocked? <==> missing && policy.None? && (!Left(g) || refused))
    && (g.status.Resolved? <==> Complete(policy, evidence))
    && (g.status.GapDeferred? <==> missing && policy.Some? && (!Left(g) || Stuck(g)))
  }

  /** The attempts as they were, the last with what it brought. */
  ghost predicate Stamped(before: seq<Attempt>, after: seq<Attempt>, fingerprint: nat) {
    && |after| == |before|
    && forall i :: 0 <= i < |before| ==>
        after[i] == if i == |before| - 1 then before[i].(fingerprint := Some(fingerprint)) else before[i]
  }

  /** The gap of the output, as it was or as it is when it is first met. */
  function RootOf(gaps: Gaps, key: GapKey, node: nat): Gap {
    if key in gaps then gaps[key].(nodes := if node in gaps[key].nodes then gaps[key].nodes
        else gaps[key].nodes + [node])
    else Gap([node], Open, 3, [], false)
  }

  /** An evaluation decides by what the evidence meets and by the attempts on record, and stores that: completed, partly
      done, to be tried again, deferred under a policy, or left to the owner; the attempts stay, the last of them with
      the digest of what it brought. */
  lemma EvaluationDecidesExactly(st: State, dispatch: nat, node: nat, policy: Option<Policy>, evidence: bool,
      fingerprint: nat, refused: bool, predecessors: map<GapKey, GapKey>)
    requires ForDispatch(st.scopes, dispatch).Some?
    ensures
      var i := ForDispatch(st.scopes, dispatch).value;
      var t := Evaluate(st, dispatch, node, policy, evidence, fingerprint, refused, predecessors);
      var key := Output(node, st.scopes[i].key);
      && |t.scopes| == |st.scopes| && key in t.gaps && dispatch in t.scopes[i].outcomes
      && t.scopes == st.scopes[i := st.scopes[i].(outcomes := st.scopes[i].outcomes[dispatch :=
          t.scopes[i].outcomes[dispatch]])]
      && Decided(policy, evidence, refused, t.gaps[key], t.scopes[i].outcomes[dispatch])
      && var before, after := RootOf(st.gaps, key, node), t.gaps[key];
      && after == before.(status := after.status, attempts := after.attempts)
      && Stamped(before.attempts, after.attempts, fingerprint)
  {
    var i := ForDispatch(st.scopes, dispatch).value;
    var key := Output(node, st.scopes[i].key);
    CheckGapsLimits(TouchGap(st.gaps, key, node, None), node, st.scopes[i].key, Checks(policy), predecessors, node,
        st.scopes[i].key);
    JudgeDecides(RootOf(st.gaps, key, node), policy, evidence, fingerprint, refused);
  }

  lemma JudgeDecides(root: Gap, policy: Option<Policy>, evidence: bool, fingerprint: nat, refused: bool)
    ensures
      var j := Judge(root, policy, evidence, fingerprint, refused);
      && Decided(policy, evidence, refused, j.1, j.0) && Stamped(root.attempts, j.1.attempts, fingerprint)
      && j.1 == root.(status := j.1.status, attempts := j.1.attempts)
  {
    MetIsCount(Checks(policy));
  }

  // ---- The requirements ----

  function KeyOf(node: nat, scope: ScopeKey, c: Check): GapKey {
    Requirement(node, c.requirement, c.criterion, scope)
  }

  /** The last requirement listed under a key. */
  ghost predicate Lists(cs: seq<Check>, node: nat, scope: ScopeKey, key: GapKey, i: nat) {
    && i < |cs| && KeyOf(node, scope, cs[i]) == key
    && forall k :: i < k < |cs| ==> KeyOf(node, scope, cs[k]) != key
  }

  ghost predicate Unlisted(cs: seq<Check>, node: nat, scope: ScopeKey, key: GapKey) {
    forall i :: 0 <= i < |cs| ==> KeyOf(node, scope, cs[i]) != key
  }

  /** What a requirement met for the first time starts from: what a replaced criterion of it used up, or nothing. */
  ghost predicate StartsFrom(gaps: Gaps, key: GapKey, predecessor: Option<GapKey>, g: Gap) {
    if predecessor.Some? && Supersedes(gaps, predecessor.value, key)
    then g.limit == gaps[predecessor.value].limit && g.attempts == gaps[predecessor.value].attempts
    else g.limit == 3 && g.attempts == []
  }

  function Named(predecessors: map<GapKey, GapKey>, key: GapKey): Option<GapKey> {
    if key in predecessors then Some(predecessors[key]) else None
  }

  /** A listed requirement is resolved or open as the evidence meets it, and no longer replaced. */
  ghost predicate Marked(gaps: Gaps, after: Gaps, node: nat, key: GapKey, met: bool) {
    && key in after && node in after[key].nodes && !after[key].superseded
    && (after[key].status.Resolved? <==> met) && (after[key].status.Open? <==> !met)
    && (key in gaps ==> after[key].limit == gaps[key].limit && after[key].attempts == gaps[key].attempts)
  }

  lemma {:induction false} ListedIsMarked(gaps: Gaps, node: nat, scope: ScopeKey, cs: seq<Check>,
      predecessors: map<GapKey, GapKey>, key: GapKey)
    ensures
      var t := CheckGaps(gaps, node, scope, cs, predecessors);
      && (Unlisted(cs, node, scope, key) ==> (key in t <==> key in gaps) && (key in gaps ==> t[key] == gaps[key]))
      && (forall i: nat :: Lists(cs, node, scope, key, i) ==> Marked(gaps, t, node, key, cs[i].met))
  {
    hide TouchGap, Lists, Unlisted;
    if cs != [] {
      var n := |cs| - 1;
      ListedIsMarked(gaps, node, scope, cs[..n], predecessors, key);
      var before := CheckGaps(gaps, node, scope, cs[..n], predecessors);
      var last := KeyOf(node, scope, cs[n]);
      Touched(before, last, node, Named(predecessors, last));
      if last == key {
        OnlyTheLast(cs, node, scope, key);
        if !Unlisted(cs[..n], node, scope, key) {
          var i := LastListed(cs[..n], node, scope, key);
          assert Marked(gaps, before, node, key, cs[..n][i].met);
        }
        assert Marked(gaps, CheckGaps(gaps, node, scope, cs, predecessors), node, key, cs[n].met);
      } else {
        StillListed(cs, node, scope, key);
      }
    } else {
      NothingListed(node, scope, key);
    }
  }

  lemma NothingListed(node: nat, scope: ScopeKey, key: GapKey)
    ensures Unlisted([], node, scope, key) && forall i: nat :: !Lists([], node, scope, key, i)
  {
  }

  lemma OnlyTheLast(cs: seq<Check>, node: nat, scope: ScopeKey, key: GapKey)
    requires cs != [] && KeyOf(node, scope, cs[|cs| - 1]) == key
    ensures !Unlisted(cs, node, scope, key) && forall i: nat :: Lists(cs, node, scope, key, i) ==> i == |cs| - 1
  {
  }

  lemma StillListed(cs: seq<Check>, node: nat, scope: ScopeKey, key: GapKey)
    requires cs != [] && KeyOf(node, scope, cs[|cs| - 1]) != key
    ensures Unlisted(cs, node, scope, key) ==> Unlisted(cs[..|cs| - 1], node, scope, key)
    ensures forall i: nat :: Lists(cs, node, scope, key, i) ==>
      Lists(cs[..|cs| - 1], node, scope, key, i) && cs[..|cs| - 1][i] == cs[i]
  {
  }

  lemma Touched(gaps: Gaps, key: GapKey, node: nat, predecessor: Option<GapKey>)
    ensures
      var t := TouchGap(gaps, key, node, predecessor);
      && key in t && node in t[key].nodes && t.Keys == gaps.Keys + {key}
      && (forall k :: k in gaps && k != key ==> t[k] == gaps[k])
      && (key in gaps ==> t[key].limit == gaps[key].limit && t[key].attempts == gaps[key].attempts)
      && (key !in gaps ==> StartsFrom(gaps, key, predecessor, t[key]))
  {
  }

  lemma {:induction false} LastListed(cs: seq<Check>, node: nat, scope: ScopeKey, key: GapKey) returns (i: nat)
    requires !Unlisted(cs, node, scope, key)
    ensures Lists(cs, node, scope, key, i)
  {
    var n := |cs| - 1;
    if KeyOf(node, scope, cs[n]) == key {
      i := n;
    } else {
      assert !Unlisted(cs[..n], node, scope, key) by {
        var k: nat :| k < |cs| && KeyOf(node, scope, cs[k]) == key;
        assert KeyOf(node, scope, cs[..n][k]) == key;
      }
      i := LastListed(cs[..n], node, scope, key);
    }
  }

  /** A requirement first met starts from what its replaced criterion used up, if that is not itself on the list. */
  lemma {:induction false} FirstMetStartsFrom(gaps: Gaps, node: nat, scope: ScopeKey, cs: seq<Check>,
      predecessors: map<GapKey, GapKey>, key: GapKey)
    requires key !in gaps && !Unlisted(cs, node, scope, key)
    requires key in predecessors ==> Unlisted(cs, node, scope, predecessors[key])
    ensures
      var t := CheckGaps(gaps, node, scope, cs, predecessors);
      key in t && StartsFrom(gaps, key, Named(predecessors, key), t[key])
  {
    hide TouchGap;
    var n := |cs| - 1;
    var before := CheckGaps(gaps, node, scope, cs[..n], predecessors);
    var last := KeyOf(node, scope, cs[n]);
    Touched(before, last, node, Named(predecessors, last));
    if Unlisted(cs[..n], node, scope, key) {
      ListedIsMarked(gaps, node, scope, cs[..n], predecessors, key);
      if key in predecessors { ListedIsMarked(gaps, node, scope, cs[..n], predecessors, predecessors[key]); }
      assert forall i :: 0 <= i < n ==> cs[..n][i] == cs[i];
    } else {
      FirstMetStartsFrom(gaps, node, scope, cs[..n], predecessors, key);
    }
  }

  /** An evaluation marks every requirement of the policy as the evidence meets it, keeps its attempts and its limit,
      lets one first met start from what its replaced criterion used up, and leaves every other missing fact alone. */
  lemma RequirementsAreMarked(st: State, dispatch: nat, node: nat, policy: Option<Policy>, evidence: bool,
      fingerprint: nat, refused: bool, predecessors: map<GapKey, GapKey>, key: GapKey)
    requires ForDispatch(st.scopes, dispatch).Some?
    requires key != Output(node, st.scopes[ForDispatch(st.scopes, dispatch).value].key)
    ensures
      var scope := st.scopes[ForDispatch(st.scopes, dispatch).value].key;
      var t := Evaluate(st, dispatch, node, policy, evidence, fingerprint, refused, predecessors).gaps;
      var cs := if policy.Some? then policy.value.checks else [];
      && (Unlisted(cs, node, scope, key) ==>
          (key in t <==> key in st.gaps) && (key in st.gaps ==> t[key] == st.gaps[key]))
      && (forall i: nat :: Lists(cs, node, scope, key, i) ==> Marked(st.gaps, t, node, key, cs[i].met))
      && (key !in st.gaps && !Unlisted(cs, node, scope, key)
            && (key in predecessors ==> Unlisted(cs, node, scope, predecessors[key])) ==>
            key in t && StartsFrom(st.gaps, key, Named(predecessors, key), t[key]))
  {
    hide TouchGap, CheckGaps, Judge, Unlisted, Lists, Supersedes;
    var scope := st.scopes[ForDispatch(st.scopes, dispatch).value].key;
    var root := Output(node, scope);
    var gaps := TouchGap(st.gaps, root, node, None);
    Touched(st.gaps, root, node, None);
    ListedIsMarked(gaps, node, scope, Checks(policy), predecessors, key);
    if key !in st.gaps && !Unlisted(Checks(policy), node, scope, key)
      && (key in predecessors ==> Unlisted(Checks(policy), node, scope, predecessors[key]))
    {
      FirstMetStartsFrom(gaps, node, scope, Checks(policy), predecessors, key);
      SameSuperseded(st.gaps, gaps, key, Named(predecessors, key), root);
    }
  }

  /** The gap of an output is never a replaced requirement. */
  lemma SameSuperseded(gaps: Gaps, touched: Gaps, key: GapKey, predecessor: Option<GapKey>, root: GapKey)
    requires root.Output? && touched.Keys == gaps.Keys + {root} && forall k :: k in gaps && k != root ==>
        touched[k] == gaps[k]
    ensures forall g: Gap :: StartsFrom(touched, key, predecessor, g) <==> StartsFrom(gaps, key, predecessor, g)
  {
  }
}
