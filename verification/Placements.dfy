/** Which scope a dispatch joins, and so whose allowances it spends (company_progress_service.ts), said of the scopes
    there are. */
module Placements {
  import opened Wrappers
  import opened Progress

  /** The first scope the owner marked for the next attempt of the node. */
  ghost predicate MarkedFor(scopes: seq<Scope>, node: nat, i: nat) {
    i < |scopes| && node in scopes[i].resume && forall k :: 0 <= k < i ==> node !in scopes[k].resume
  }

  ghost predicate Holds(scopes: seq<Scope>, dispatch: nat, i: nat) {
    i < |scopes| && dispatch in scopes[i].dispatches
  }

  predicate Recurs(scopes: seq<Scope>, i: nat) {
    i < |scopes| && scopes[i].key.Scheduled?
  }

  /** A scope a node takes over from a dispatch it depends on. */
  ghost predicate TakesOver(scopes: seq<Scope>, origins: seq<nat>, i: nat) {
    exists d :: d in origins && Holds(scopes, d, i)
  }

  /** The scope of the first of those dispatches that has one. */
  ghost predicate TakesOverFirst(scopes: seq<Scope>, origins: seq<nat>, i: nat) {
    exists n :: 0 <= n < |origins| && Holds(scopes, origins[n], i)
      && forall m, k :: 0 <= m < n ==> !Holds(scopes, origins[m], k)
  }

  ghost predicate FirstWith(scopes: seq<Scope>, key: ScopeKey, i: nat) {
    i < |scopes| && scopes[i].key == key && forall k :: 0 <= k < i ==> scopes[k].key != key
  }

  function OwnKey(p: Placement): ScopeKey {
    if p.once then Once else Scheduled(p.node, p.scheduledAt)
  }

  /** The two scopes differ, and both belong to a schedule. */
  ghost predicate Ambiguous(scopes: seq<Scope>, origins: seq<nat>) {
    exists i, j :: i != j && TakesOver(scopes, origins, i) && TakesOver(scopes, origins, j)
      && Recurs(scopes, i) && Recurs(scopes, j)
  }

  /** The owner's mark comes first, then the occurrence that is retried; a node that runs once then takes over the scope
      of a schedule it depends on, else that of the first dispatch it depends on; what is left shares the scope with its
      own key. */
  ghost predicate JoinsOf(scopes: seq<Scope>, p: Placement, i: nat) {
    if exists k :: MarkedFor(scopes, p.node, k) then MarkedFor(scopes, p.node, i)
    else if p.unsettledPrior.Some? && exists k :: Holds(scopes, p.unsettledPrior.value, k)
    then Holds(scopes, p.unsettledPrior.value, i)
    else if p.once && exists k :: TakesOver(scopes, p.origins, k) && Recurs(scopes, k)
    then TakesOver(scopes, p.origins, i) && Recurs(scopes, i) && !Ambiguous(scopes, p.origins)
    else if p.once && exists k :: TakesOver(scopes, p.origins, k) then TakesOverFirst(scopes, p.origins, i)
    else FirstWith(scopes, OwnKey(p), i)
  }

  /** Nothing above decides, and two schedules do not agree. */
  ghost predicate Undecided(scopes: seq<Scope>, p: Placement) {
    && (forall k :: !MarkedFor(scopes, p.node, k))
    && (p.unsettledPrior.Some? ==> forall k :: !Holds(scopes, p.unsettledPrior.value, k))
    && p.once && Ambiguous(scopes, p.origins)
  }

  // ---- The searches ----

  lemma {:induction false} ResumableIsFirst(scopes: seq<Scope>, node: nat)
    ensures Resumable(scopes, node).Some? ==> MarkedFor(scopes, node, Resumable(scopes, node).value)
    ensures Resumable(scopes, node).None? ==> forall k :: 0 <= k < |scopes| ==> node !in scopes[k].resume
  {
    if scopes != [] {
      ResumableIsFirst(scopes[..|scopes| - 1], node);
      assert forall k :: 0 <= k < |scopes| - 1 ==> scopes[..|scopes| - 1][k] == scopes[k];
    }
  }

  lemma {:induction false} WithKeyIsFirst(scopes: seq<Scope>, key: ScopeKey)
    ensures WithKey(scopes, key).Some? ==> FirstWith(scopes, key, WithKey(scopes, key).value)
  {
    if scopes != [] {
      WithKeyIsFirst(scopes[..|scopes| - 1], key);
      assert forall k :: 0 <= k < |scopes| - 1 ==> scopes[..|scopes| - 1][k] == scopes[k];
    }
  }

  lemma HolderIsFound(scopes: seq<Scope>, d: nat)
    requires OneScopeEach(scopes)
    ensures forall i: nat :: Holds(scopes, d, i) <==> ForDispatch(scopes, d) == Some(i)
  {
    forall i: nat | Holds(scopes, d, i) ensures ForDispatch(scopes, d) == Some(i) {
      var j := ForDispatch(scopes, d).value;
      assert i < j || j < i || i == j;
    }
  }

  lemma {:induction false} InheritedExactly(scopes: seq<Scope>, origins: seq<nat>)
    requires OneScopeEach(scopes)
    ensures forall i: nat :: i in Inherited(scopes, origins) <==> TakesOver(scopes, origins, i)
    ensures Inherited(scopes, origins) != [] ==> TakesOverFirst(scopes, origins, Inherited(scopes, origins)[0])
  {
    hide OneScopeEach, Holds, ForDispatch;
    if origins != [] {
      var n := |origins| - 1;
      InheritedExactly(scopes, origins[..n]);
      HolderIsFound(scopes, origins[n]);
      forall i: nat ensures TakesOver(scopes, origins, i) <==>
        TakesOver(scopes, origins[..n], i) || Holds(scopes, origins[n], i)
      {
        if d :| d in origins && Holds(scopes, d, i) {
          if d != origins[n] { assert d in origins[..n]; }
        }
      }
      if Inherited(scopes, origins[..n]) != [] {
        FirstStays(scopes, origins, Inherited(scopes, origins[..n])[0]);
      } else if i: nat :| Holds(scopes, origins[n], i) {
        forall m: int, k: nat | 0 <= m < n ensures !Holds(scopes, origins[m], k) {
          assert !TakesOver(scopes, origins[..n], k) && origins[..n][m] == origins[m];
        }
        assert TakesOverFirst(scopes, origins, i);
      }
    }
  }

  lemma FirstStays(scopes: seq<Scope>, origins: seq<nat>, i: nat)
    requires origins != [] && TakesOverFirst(scopes, origins[..|origins| - 1], i)
    ensures TakesOverFirst(scopes, origins, i)
  {
    var before := origins[..|origins| - 1];
    var n :| 0 <= n < |before| && Holds(scopes, before[n], i)
      && forall m, k :: 0 <= m < n ==> !Holds(scopes, before[m], k);
    assert Holds(scopes, origins[n], i);
    forall m: int, k: nat | 0 <= m < n ensures !Holds(scopes, origins[m], k) {
      assert origins[m] == before[m];
    }
  }

  lemma {:induction false} OnlyScheduledExactly(scopes: seq<Scope>, found: seq<nat>)
    requires forall i :: 0 <= i < |found| ==> found[i] < |scopes|
    ensures forall i: nat :: i in OnlyScheduled(scopes, found) <==> i in found && Recurs(scopes, i)
  {
    if found != [] {
      OnlyScheduledExactly(scopes, found[..|found| - 1]);
      assert found == found[..|found| - 1] + [found[|found| - 1]];
    }
  }

  lemma InheritedDecides(scopes: seq<Scope>, origins: seq<nat>)
    requires OneScopeEach(scopes)
    ensures
      var all := Inherited(scopes, origins);
      var scheduled := OnlyScheduled(scopes, all);
      && (forall k: nat :: k in scheduled <==> TakesOver(scopes, origins, k) && Recurs(scopes, k))
      && ((exists i, j :: 0 <= i < |scheduled| && 0 <= j < |scheduled| && scheduled[i] != scheduled[j])
            <==> Ambiguous(scopes, origins))
      && (scheduled == [] <==> forall k :: !(TakesOver(scopes, origins, k) && Recurs(scopes, k)))
      && (all == [] <==> forall k :: !TakesOver(scopes, origins, k))
      && (all != [] ==> TakesOverFirst(scopes, origins, all[0]))
  {
    hide OneScopeEach, TakesOver, TakesOverFirst, Recurs;
    var all := Inherited(scopes, origins);
    var scheduled := OnlyScheduled(scopes, all);
    InheritedExactly(scopes, origins);
    OnlyScheduledExactly(scopes, all);
    if i, j :| 0 <= i < |scheduled| && 0 <= j < |scheduled| && scheduled[i] != scheduled[j] {
      assert scheduled[i] in scheduled && scheduled[j] in scheduled;
    }
    if i: nat, j: nat :|
      && i != j && TakesOver(scopes, origins, i) && TakesOver(scopes, origins, j)
      && Recurs(scopes, i) && Recurs(scopes, j)
    {
      assert i in scheduled && j in scheduled;
    }
    if scheduled != [] { assert scheduled[0] in scheduled; }
    if all != [] { assert all[0] in all; }
  }

  lemma ChosenJoins(scopes: seq<Scope>, p: Placement)
    requires OneScopeEach(scopes)
    ensures
      var r := Chosen(scopes, p);
      && (r.Err? <==> Undecided(scopes, p)) && (r.Err? ==> r.error == "OWNER_PROGRESS_BATCH_AMBIGUOUS")
      && (r.Ok? && r.value.Some? ==> JoinsOf(scopes, p, r.value.value))
      && (r.Ok? && r.value.None? ==> forall i: nat :: !JoinsOf(scopes, p, i))
  {
    hide OneScopeEach, Holds, TakesOver, TakesOverFirst, Recurs, Ambiguous, OnlyScheduled, Inherited, Resumable,
      ForDispatch, WithKey;
    ResumableIsFirst(scopes, p.node);
    WithKeyIsFirst(scopes, OwnKey(p));
    if p.unsettledPrior.Some? { HolderIsFound(scopes, p.unsettledPrior.value); }
    InheritedDecides(scopes, p.origins);
  }

  // ---- A dispatch ----

  /** A scope with full allowances. */
  predicate Fresh(s: Scope, key: ScopeKey, dispatch: nat) {
    && s.key == key && s.dispatches == [dispatch] && s.operations == [] && s.modelCalls == 0 && s.toolCalls == 0
    && s.maxModelCalls == 60 && s.maxToolCalls == 120 && s.windowMs == 900_000
    && s.startedAt.None? && s.deadlineAt.None? && s.resume == {} && s.outcomes == map[]
  }

  /** A dispatch joins one scope, with the counts it has, or opens one with full allowances if no scope is its own; it
      is refused only if it depends on two schedules. */
  lemma DispatchJoinsExactly(st: State, dispatch: nat, p: Placement)
    requires Inv(st) && (forall i: nat :: !Holds(st.scopes, dispatch, i))
    ensures
      var r, n := Attach(st, dispatch, p), |st.scopes|;
      && (r.Err? <==> Undecided(st.scopes, p)) && (r.Err? ==> r.error == "OWNER_PROGRESS_BATCH_AMBIGUOUS")
      && (r.Ok? && (exists i: nat :: JoinsOf(st.scopes, p, i)) ==>
            exists i: nat :: i < n && JoinsOf(st.scopes, p, i)
              && r.value == st.(scopes := st.scopes[i := st.scopes[i].(dispatches := st.scopes[i].dispatches
                  + [dispatch],
                  resume := st.scopes[i].resume - {p.node})]))
      && (r.Ok? && (forall i: nat :: !JoinsOf(st.scopes, p, i)) ==>
            && |r.value.scopes| == n + 1 && r.value == st.(scopes := st.scopes + [r.value.scopes[n]])
            && Fresh(r.value.scopes[n], OwnKey(p), dispatch))
  {
    hide Chosen, JoinsOf, Undecided;
    ChosenJoins(st.scopes, p);
    HolderIsFound(st.scopes, dispatch);
    var r, n := Attach(st, dispatch, p), |st.scopes|;
    if r.Ok? && Chosen(st.scopes, p).value.None? {
      assert r.value.scopes == st.scopes + [r.value.scopes[n]];
    }
  }

  /** What the owner asked to be continued is continued in the same scope: the next attempt of the node joins a scope
      marked for it, and the first that was. */
  lemma ContinuationRejoins(st: State, dispatch: nat, next: nat, p: Placement, i: nat)
    requires Inv(st) && Holds(st.scopes, dispatch, i) && (forall k: nat :: !Holds(st.scopes, next, k))
    ensures
      var t := RequestContinuation(ResetWindow(st, dispatch), dispatch, p.node);
      var r := Attach(t, next, p);
      && r.Ok? && exists k: nat ::
        && k <= i && Holds(r.value.scopes, next, k)
        && (k < i ==> p.node in st.scopes[k].resume)
        && (k == i ==>
              && r.value.scopes[i].operations == [] && r.value.scopes[i].modelCalls == 0
              && r.value.scopes[i].toolCalls == 0 && r.value.scopes[i].maxModelCalls == 60
              && r.value.scopes[i].maxToolCalls == 120 && r.value.scopes[i].windowMs == 900_000
              && r.value.scopes[i].startedAt.None? && r.value.scopes[i].deadlineAt.None?)
  {
    hide Inherited, OnlyScheduled, WithKey;
    HolderIsFound(st.scopes, dispatch);
    HolderIsFound(st.scopes, next);
    var u := ResetWindow(st, dispatch);
    var t := RequestContinuation(u, dispatch, p.node);
    SameDispatches(st.scopes, u.scopes, dispatch);
    SameDispatches(st.scopes, t.scopes, next);
    ResumableIsFirst(t.scopes, p.node);
    var k := Resumable(t.scopes, p.node).value;
    var r := Attach(t, next, p);
    assert Holds(r.value.scopes, next, k);
  }
}
