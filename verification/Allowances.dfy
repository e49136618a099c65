/** When a call is admitted, and what it uses up (company_progress_service.ts), said of the counts, the window and the
    attempts on record. */
module Allowances {
  import opened Wrappers
  import opened Progress

  /** The last attempt by a method among the first `to`. */
  ghost predicate LastBy(attempts: seq<Attempt>, methodKey: nat, i: nat, to: nat)
    requires to <= |attempts|
  {
    && i < to && attempts[i].methodKey == methodKey
    && forall k :: i < k < to ==> attempts[k].methodKey != methodKey
  }

  /** The last two attempts by the method brought the same. */
  ghost predicate Exhausted(attempts: seq<Attempt>, methodKey: nat) {
    exists i: nat, j: nat :: LastBy(attempts, methodKey, j, |attempts|) && LastBy(attempts, methodKey, i, j)
      && attempts[i].fingerprint.Some? && attempts[i].fingerprint == attempts[j].fingerprint
  }

  ghost predicate OnRecord(attempts: seq<Attempt>, key: AttemptKey) {
    exists a :: a in attempts && a.key == key
  }

  /** One more attempt at the missing fact. */
  ghost predicate Admits(g: Gap, key: AttemptKey, methodKey: nat) {
    OnRecord(g.attempts, key) || (|g.attempts| < g.limit && !Exhausted(g.attempts, methodKey))
  }

  /** Before the window ends, and with calls of both kinds left. */
  predicate Available(s: Scope, now: nat) {
    && (s.deadlineAt.Some? ==> now < s.deadlineAt.value)
    && s.modelCalls < s.maxModelCalls && s.toolCalls < s.maxToolCalls
  }

  predicate Charges(s: Scope, key: OperationKey, now: nat) {
    key in s.operations || Available(s, now)
  }

  /** The attempt is on record once, under its method, and the missing fact open. */
  ghost predicate Recorded(before: Gap, after: Gap, key: AttemptKey, methodKey: nat) {
    if OnRecord(before.attempts, key) then after == before
    else after == before.(attempts := before.attempts + [Attempt(key, methodKey, None)], status := Open)
  }

  /** The operation is charged once, to the count of its kind. */
  predicate ChargedTo(before: Scope, after: Scope, key: OperationKey) {
    if key in before.operations then after == before
    else
      && after == before.(operations := before.operations + [key], modelCalls := after.modelCalls,
          toolCalls := after.toolCalls)
      && after.modelCalls == before.modelCalls + (match key case ModelKey(_, _) => 1 case ToolKey(_) => 0)
      && after.toolCalls == before.toolCalls + (match key case ModelKey(_, _) => 0 case ToolKey(_) => 1)
  }

  // ---- The last attempts of a method ----

  lemma {:induction false} LastOfMethod(attempts: seq<Attempt>, methodKey: nat, to: nat)
    requires to <= |attempts|
    ensures ByMethod(attempts[..to], methodKey) == [] <==> forall i: nat :: !LastBy(attempts, methodKey, i, to)
    ensures forall i: nat :: LastBy(attempts, methodKey, i, to) ==>
      ByMethod(attempts[..to], methodKey) == ByMethod(attempts[..i], methodKey) + [attempts[i]]
  {
    if to > 0 {
      var n := to - 1;
      LastOfMethod(attempts, methodKey, n);
      assert attempts[..to][..n] == attempts[..n] && attempts[..to][n] == attempts[n];
      if attempts[n].methodKey == methodKey {
        assert LastBy(attempts, methodKey, n, to);
        assert forall i: nat :: LastBy(attempts, methodKey, i, to) ==> i == n;
      } else if i: nat :| LastBy(attempts, methodKey, i, to) {
        assert LastBy(attempts, methodKey, i, n);
        OnlyLast(attempts, methodKey, i, to);
      } else {
        forall i: nat ensures !LastBy(attempts, methodKey, i, n) {
          assert !LastBy(attempts, methodKey, i, to);
        }
      }
    }
  }

  lemma RepeatingIsExhausted(attempts: seq<Attempt>, methodKey: nat)
    ensures Repeating(ByMethod(attempts, methodKey)) <==> Exhausted(attempts, methodKey)
  {
    hide ByMethod, LastBy;
    assert attempts[..|attempts|] == attempts;
    LastOfMethod(attempts, methodKey, |attempts|);
    if j: nat :| LastBy(attempts, methodKey, j, |attempts|) {
      OnlyLast(attempts, methodKey, j, |attempts|);
      LastOfMethod(attempts, methodKey, j);
      if i: nat :| LastBy(attempts, methodKey, i, j) {
        OnlyLast(attempts, methodKey, i, j);
      }
    }
  }

  lemma OnlyLast(attempts: seq<Attempt>, methodKey: nat, i: nat, to: nat)
    requires to <= |attempts| && LastBy(attempts, methodKey, i, to)
    ensures i < to && forall k: nat :: LastBy(attempts, methodKey, k, to) ==> k == i
  {
  }

  lemma AttemptIsAdmittedExactly(g: Gap, key: AttemptKey, methodKey: nat)
    ensures var r := RecordAttempt(g, key, methodKey);
      && (r.Ok? <==> Admits(g, key, methodKey))
      && (r.Ok? ==> Recorded(g, r.value, key, methodKey))
      && (r.Err? ==> r.error == if |g.attempts| >= g.limit then "OWNER_PROGRESS_GAP_LIMIT"
            else "OWNER_PROGRESS_METHOD_EXHAUSTED")
  {
    hide ByMethod, Repeating, Exhausted;
    RepeatingIsExhausted(g.attempts, methodKey);
    if i :| 0 <= i < |g.attempts| && g.attempts[i].key == key { assert g.attempts[i] in g.attempts; }
  }

  // ---- A call of the model ----

  /** The missing output of the node, as it is or as it is when it is first met. */
  function OutputGap(gaps: Gaps, key: GapKey, node: nat): Gap {
    if key in gaps then gaps[key].(nodes := if node in gaps[key].nodes then gaps[key].nodes
        else gaps[key].nodes + [node])
    else Gap([node], Open, 3, [], false)
  }

  /** A call of the model under a scope is admitted exactly when its output is not out of attempts and its method has
      not merely repeated itself, and its operation is charged or can be: inside the window, with a call of each kind
      left. Attempt and charge are on record once, together; nothing else changes. */
  lemma ModelCallIsAdmittedExactly(st: State, dispatch: nat, node: nat, attempt: nat, operation: nat, transport: int,
      now: nat)
    requires ForDispatch(st.scopes, dispatch).Some?
    ensures
      var i, r := ForDispatch(st.scopes, dispatch).value,
          BeforeModel(st, dispatch, Some(node), attempt, operation, transport, now);
      var s, key := st.scopes[i], Output(node, st.scopes[i].key);
      var g := OutputGap(st.gaps, key, node);
      && (r.Ok? <==>
            && 1 <= transport <= 2 && Admits(g, ExecutionAttempt(attempt), attempt)
            && Charges(s, ModelKey(operation, transport), now))
      && (r.Ok? ==>
            && key in r.value.gaps && Recorded(g, r.value.gaps[key], ExecutionAttempt(attempt), attempt)
            && r.value.gaps == st.gaps[key := r.value.gaps[key]]
            && |r.value.scopes| == |st.scopes| && r.value.scopes == st.scopes[i := r.value.scopes[i]]
            && ChargedTo(s, r.value.scopes[i], ModelKey(operation, transport)))
  {
    hide Admits, Recorded, RecordAttempt;
    var i := ForDispatch(st.scopes, dispatch).value;
    var key := Output(node, st.scopes[i].key);
    assert TouchGap(st.gaps, key, node, None) == st.gaps[key := OutputGap(st.gaps, key, node)];
    AttemptIsAdmittedExactly(OutputGap(st.gaps, key, node), ExecutionAttempt(attempt), attempt);
  }

  /** A tool call is admitted exactly when its operation is charged or can be and the missing fact it names, if any, is
      known and admits one more attempt by its method. */
  lemma ToolCallIsAdmittedExactly(st: State, dispatch: nat, operation: nat, gap: Option<(GapKey, nat)>, now: nat)
    requires ForDispatch(st.scopes, dispatch).Some?
    ensures
      var i, r := ForDispatch(st.scopes, dispatch).value, BeforeTool(st, dispatch, operation, gap, now);
      && (r.Ok? <==>
            && Charges(st.scopes[i], ToolKey(operation), now)
            && (gap.Some? ==>
                  && gap.value.0 in st.gaps
                  && Admits(st.gaps[gap.value.0], ToolAttempt(operation), gap.value.1)))
      && (r.Ok? ==>
            && |r.value.scopes| == |st.scopes| && r.value.scopes == st.scopes[i := r.value.scopes[i]]
            && ChargedTo(st.scopes[i], r.value.scopes[i], ToolKey(operation))
            && (gap.None? ==> r.value.gaps == st.gaps)
            && (gap.Some? ==>
                  var key := gap.value.0;
                  && key in r.value.gaps && r.value.gaps == st.gaps[key := r.value.gaps[key]]
                  && Recorded(st.gaps[key], r.value.gaps[key], ToolAttempt(operation), gap.value.1)))
  {
    hide Admits, Recorded, RecordAttempt;
    if gap.Some? && gap.value.0 in st.gaps {
      AttemptIsAdmittedExactly(st.gaps[gap.value.0], ToolAttempt(operation), gap.value.1);
    }
  }

  // ---- The result of a tool ----

  /** The attempts as they were, the one made for the operation with the digest of its result. */
  ghost predicate Answered(before: seq<Attempt>, after: seq<Attempt>, key: AttemptKey, fingerprint: nat) {
    && |after| == |before|
    && forall i :: 0 <= i < |before| ==>
        after[i] == if before[i].key == key then before[i].(fingerprint := Some(fingerprint)) else before[i]
  }

  lemma {:induction false} FingerprintedExactly(attempts: seq<Attempt>, key: AttemptKey, fingerprint: nat)
    requires forall i, j :: 0 <= i < j < |attempts| ==> attempts[i].key != attempts[j].key
    ensures Answered(attempts, Fingerprinted(attempts, key, fingerprint), key, fingerprint)
  {
    if attempts != [] && attempts[0].key != key {
      FingerprintedExactly(attempts[1..], key, fingerprint);
    }
  }

  /** The result of a tool under a scope is recorded in every missing fact it was an attempt at, and nowhere else. */
  lemma ToolResultIsRecorded(st: State, dispatch: nat, operation: nat, fingerprint: nat)
    requires Inv(st) && ForDispatch(st.scopes, dispatch).Some?
    ensures
      var t := RecordTool(st, dispatch, operation, fingerprint);
      && t.scopes == st.scopes && t.gaps.Keys == st.gaps.Keys
      && forall k :: k in st.gaps ==>
          && t.gaps[k] == st.gaps[k].(attempts := t.gaps[k].attempts)
          && Answered(st.gaps[k].attempts, t.gaps[k].attempts, ToolAttempt(operation), fingerprint)
  {
    hide Answered;
    forall k | k in st.gaps
      ensures Answered(st.gaps[k].attempts, Fingerprinted(st.gaps[k].attempts, ToolAttempt(operation), fingerprint),
        ToolAttempt(operation), fingerprint)
    {
      assert GapOk(st.gaps[k]);
      FingerprintedExactly(st.gaps[k].attempts, ToolAttempt(operation), fingerprint);
    }
  }

  // ---- The window and what the owner adds ----

  /** The window opens with the first start and is never moved by a later one; past it, or without calls left, a start
      is refused. */
  lemma WindowOpensOnce(st: State, dispatch: nat, now: nat, later: nat)
    requires ForDispatch(st.scopes, dispatch).Some? && StartWindow(st, dispatch, now).Ok? && Inv(st)
    ensures
      var i, t := ForDispatch(st.scopes, dispatch).value, StartWindow(st, dispatch, now).value;
      var s := st.scopes[i];
      && |t.scopes| == |st.scopes| && ForDispatch(t.scopes, dispatch) == Some(i)
      && t.scopes[i].deadlineAt == (if s.startedAt.Some? then s.deadlineAt else Some(now + s.windowMs))
      && t.scopes[i].startedAt.Some?
      && (StartWindow(t, dispatch, later).Ok? <==> Available(t.scopes[i], later))
      && (Available(t.scopes[i], later) ==> StartWindow(t, dispatch, later) == Ok(t))
  {
    var i, t := ForDispatch(st.scopes, dispatch).value, StartWindow(st, dispatch, now).value;
    SameDispatches(st.scopes, t.scopes, dispatch);
    assert t.scopes[i := t.scopes[i]] == t.scopes;
  }

  predicate UpTo(v: Option<int>, most: int) {
    v.Some? ==> 1 <= v.value <= most
  }

  /** Something is asked for, nothing out of its range, and attempts only for a missing fact that is known. */
  predicate Sensible(st: State, x: Extension) {
    && (x.modelCalls.Some? || x.toolCalls.Some? || x.minutes.Some? || x.attempts.Some?)
    && UpTo(x.modelCalls, 120) && UpTo(x.toolCalls, 120) && UpTo(x.minutes, 60) && UpTo(x.attempts, 10)
    && (x.attempts.Some? ==> x.gap.Some? && x.gap.value in st.gaps)
  }

  /** The window: one not yet open gets longer, one that runs ends later, one that has ended runs on from now. */
  predicate Longer(before: Scope, after: Scope, minutes: Option<int>, now: nat) {
    && (minutes.None? ==> after.windowMs == before.windowMs && after.deadlineAt == before.deadlineAt)
    && (minutes.Some? && before.startedAt.None? ==>
          after.windowMs == before.windowMs + 60_000 * minutes.value && after.deadlineAt == before.deadlineAt)
    && (minutes.Some? && before.startedAt.Some? ==>
          && after.windowMs == before.windowMs && after.deadlineAt.Some?
          && var from := after.deadlineAt.value - 60_000 * minutes.value;
          && from >= now && (before.deadlineAt.Some? ==> from >= before.deadlineAt.value)
          && (from == now || (before.deadlineAt.Some? && from == before.deadlineAt.value)))
  }

  /** What the owner adds: calls of each kind to their allowances, time to the window, attempts to a missing fact. */
  lemma OwnerExtendsExactly(st: State, dispatch: nat, x: Extension, now: nat)
    ensures Extend(st, dispatch, x, now).Ok? <==> ForDispatch(st.scopes, dispatch).Some? && Sensible(st, x)
    ensures ForDispatch(st.scopes, dispatch).Some? && Sensible(st, x) ==>
      var i, t := ForDispatch(st.scopes, dispatch).value, Extend(st, dispatch, x, now).value;
      var s := st.scopes[i];
      && |t.scopes| == |st.scopes| && t.scopes == st.scopes[i := t.scopes[i]]
      && var after := t.scopes[i];
      && after == s.(maxModelCalls := after.maxModelCalls, maxToolCalls := after.maxToolCalls,
          windowMs := after.windowMs, deadlineAt := after.deadlineAt)
      && after.maxModelCalls - s.maxModelCalls == (if x.modelCalls.Some? then x.modelCalls.value else 0)
      && after.maxToolCalls - s.maxToolCalls == (if x.toolCalls.Some? then x.toolCalls.value else 0)
      && Longer(s, after, x.minutes, now)
      && t.gaps.Keys == st.gaps.Keys
      && forall k :: k in st.gaps ==> t.gaps[k] == st.gaps[k].(limit := st.gaps[k].limit
          + if x.gap == Some(k) && x.attempts.Some? then x.attempts.value else 0)
  {
  }
}
