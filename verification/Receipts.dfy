/** What the delivery of receipts guarantees: superseded attempts are mute, and the order of delivery is immaterial
    exactly when it should be. */
module Receipts {
  import opened Wrappers
  import opened AttemptStates
  import opened Execution

  // ---- Who may write a task ----

  /** Applying an attempt's receipts writes no other attempt's row, and no row of other work than its own. */
  lemma {:induction false} ContiguousWritesOneTask(s: State, id: nat)
    requires id < |s.attempts| && ApplyContiguous(s, id).Ok?
    ensures
      var t := ApplyContiguous(s, id).value;
      && |t.attempts| == |s.attempts| && |t.tasks| == |s.tasks|
      && (forall i :: 0 <= i < |s.attempts| && i != id ==> t.attempts[i] == s.attempts[i])
      && (forall k :: 0 <= k < |s.tasks| && k != s.attempts[id].task ==> t.tasks[k] == s.tasks[k])
    decreases Unapplied(s.inbox)
  {
    if Waiting(s, id) {
      ContiguousWritesOneTask(ApplyNext(s, id).value, id);
    }
  }

  /** A receipt of an attempt that is not its task's newest, or that carries another fence, changes nothing at all. */
  lemma SupersededReceiptChangesNothing(s: State, r: Receipt)
    requires r.attempt < |s.attempts|
    requires r.fence != s.attempts[r.attempt].fence
        || Latest(s.attempts, OfTask(s.attempts[r.attempt].task)) != Some(r.attempt)
    ensures OrElse(Deliver(s, r), s) == s
  {
  }

  /** Receipts reach a task's row only from the attempt with the highest fence of that task. */
  lemma OnlyTheNewestAttemptWritesItsTask(s: State, r: Receipt, task: nat)
    requires task < |s.tasks| && Deliver(s, r).Ok?
    ensures task < |Deliver(s, r).value.tasks|
    ensures Deliver(s, r).value.tasks[task] != s.tasks[task] ==>
      r.attempt < |s.attempts| && s.attempts[r.attempt].task == task && r.fence == s.attempts[r.attempt].fence
      && forall i :: 0 <= i < |s.attempts| && s.attempts[i].task == task ==> s.attempts[i].fence <= r.fence
  {
    if !KnownEvent(s.inbox, r.event) {
      ContiguousWritesOneTask(Post(s, r), r.attempt);
      assert forall i :: 0 <= i < |s.attempts| && s.attempts[i].task == task ==> Matches(s.attempts[i], OfTask(task));
    }
  }

  /** A claim or a resumption supersedes every earlier attempt of its task with a higher fence, and takes a world nobody
      holds. */
  lemma NewAttemptSupersedes(s: State, op: Op, i: nat)
    requires Inv(s) && |Step(s, op).attempts| > |s.attempts| && i < |s.attempts|
    ensures
      var t := Step(s, op).attempts; var n := |s.attempts|;
      && |t| == n + 1
      && (s.attempts[i].task == t[n].task ==> s.attempts[i].fence < t[n].fence && !Active(s.attempts[i].state))
      && (s.attempts[i].world == t[n].world ==> !Holding(s.attempts[i]))
  {
    if op.ClaimOp? {
      assert Matches(s.attempts[i], OfTask(op.task)) <==> s.attempts[i].task == op.task;
    } else {
      assert op.ResumeOp? by { GrowthShape(s, op); }
      ResumeSupersedes(s, op.run, i);
    }
  }

  lemma DeliverKeepsLength(s: State, r: Receipt)
    requires Deliver(s, r).Ok?
    ensures |Deliver(s, r).value.attempts| == |s.attempts|
    ensures r.attempt < |s.attempts| ==> forall i :: 0 <= i < |s.attempts| && i != r.attempt ==>
        Deliver(s, r).value.attempts[i] == s.attempts[i]
  {
    if !KnownEvent(s.inbox, r.event) {
      ContiguousWritesOneTask(Post(s, r), r.attempt);
    }
  }

  lemma GrowthShape(s: State, op: Op)
    requires |Step(s, op).attempts| > |s.attempts|
    ensures op.ClaimOp? || op.ResumeOp?
  {
    if op.DeliverOp? {
      if Deliver(s, op.receipt).Ok? { DeliverKeepsLength(s, op.receipt); }
    } else if op.ObserveOp? {
      ObserveKeepsLength(s, op.run, op.kind, op.reason, op.reply, op.fact);
    }
  }

  lemma ObserveKeepsLength(s: State, run: nat, kind: AttemptState, reason: Option<string>, reply: Option<string>,
      fact: Option<string>)
    requires Observe(s, run, kind, reason, reply, fact).Ok?
    ensures
      var t, r := Observe(s, run, kind, reason, reply, fact).value, Latest(s.attempts, OfRun(run));
      |t.attempts| == |s.attempts| && forall i :: 0 <= i < |s.attempts| && r != Some(i) ==>
          t.attempts[i] == s.attempts[i]
  {
    var t := Observe(s, run, kind, reason, reply, fact).value;
    if t != s {
      var id := Latest(s.attempts, OfRun(run)).value;
      var a := s.attempts[id];
      DeliverKeepsLength(s, Receipt(if fact.Some? then Fact(fact.value)
          else Observed(id, kind, reason, reply), id, a.lastSequence + 1, a.fence, kind,
                                    if reason == Some("") then None else reason, reply));
    }
  }

  lemma ResumeSupersedes(s: State, run: nat, i: nat)
    requires Inv(s) && i < |s.attempts| && ResumeLegacyRun(s, run).Ok?
        && |ResumeLegacyRun(s, run).value.attempts| > |s.attempts|
    ensures
      var t := ResumeLegacyRun(s, run).value.attempts; var n := |s.attempts|;
      && |t| == n + 1
      && (s.attempts[i].task == t[n].task ==> s.attempts[i].fence < t[n].fence && !Active(s.attempts[i].state))
      && (s.attempts[i].world == t[n].world ==> !Holding(s.attempts[i]))
  {
    hide InboxOk, Settled, RefsOk, Observe, Insertable;
    var id, n := Latest(s.attempts, OfRun(run)).value, |s.attempts|;
    var u := s.(attempts := s.attempts + [Resumed(s.attempts[id], s.owner)]);
    InsertResumed(s, id);
    ObserveKeepsLength(u, run, Running, None, None, None);
    ObserveKeeps(u, run, Running, None, None, None);
    assert AttemptEvolves(u.attempts[n], ResumeLegacyRun(s, run).value.attempts[n]);
    assert Holding(u.attempts[n]) && u.attempts[i] == s.attempts[i];
  }

  // ---- Facts are applied once ----

  /** Reporting the same durable fact again changes nothing, whatever was reported in between. */
  lemma SameFactIsAbsorbed(s: State, run: nat, kind: AttemptState, reason: Option<string>, reply: Option<string>,
      fact: string)
    requires KnownEvent(s.inbox, Fact(fact))
    ensures Observe(s, run, kind, reason, reply, Some(fact)) == Ok(s)
  {
  }

  /** A receipt that is already stored is answered without effect, before its fence is looked at. */
  lemma RedeliveryChangesNothing(s: State, slot: Slot)
    requires Inv(s) && slot in s.inbox
    ensures Deliver(s, s.inbox[slot].receipt) == Ok(s)
  {
    assert s.inbox[slot].receipt.event == s.inbox[slot].receipt.event;
  }

  // ---- The order of delivery ----

  /** Receipts for the next sequence numbers of a current attempt, none of them known yet. */
  ghost predicate Fresh(s: State, id: nat, rs: seq<Receipt>) {
    && id < |s.attempts| && Latest(s.attempts, OfTask(s.attempts[id].task)) == Some(id)
    && (forall k :: 0 <= k < |rs| ==>
          && ValidReceipt(rs[k]) && rs[k].attempt == id && rs[k].fence == s.attempts[id].fence
          && rs[k].sequence == s.attempts[id].lastSequence + k + 1 && !KnownEvent(s.inbox, rs[k].event))
    && (forall i, k :: 0 <= i < k < |rs| ==> rs[i].event != rs[k].event)
    && (forall slot :: slot in s.inbox && slot.attempt == id ==> slot.sequence <= s.attempts[id].lastSequence)
  }

  /** Receipt `k` can follow the ones before it: the state it meets is not terminal, and a start finds its world
      free. */
  predicate Follows(s: State, id: nat, rs: seq<Receipt>, k: nat)
    requires id < |s.attempts| && k < |rs|
  {
    && Active(if k == 0 then s.attempts[id].state else rs[k - 1].kind)
    && (rs[k].kind.Running? ==> !Clash(s.attempts, id))
  }

  /** The rows after the first `m` receipts were applied in order. */
  function InOrder(s: State, id: nat, rs: seq<Receipt>, m: nat): (t: State)
    requires id < |s.attempts| && m <= |rs|
    ensures |t.attempts| == |s.attempts|
  {
    if m == 0 then s
    else
      var t := InOrder(s, id, rs, m - 1);
      OrElse(ApplyRows(t, id, rs[m - 1]), t)
  }

  lemma {:induction false} InOrderShape(s: State, id: nat, rs: seq<Receipt>, m: nat)
    requires Fresh(s, id, rs) && m <= |rs| && forall k :: 0 <= k < m ==> Follows(s, id, rs, k)
    ensures
      var t, a := InOrder(s, id, rs, m), s.attempts[id];
      && t.inbox == s.inbox && t.attempts == s.attempts[id := t.attempts[id]]
      && t.attempts[id] == a.(state := if m == 0 then a.state
          else rs[m - 1].kind, reason := t.attempts[id].reason, lastSequence := a.lastSequence + m)
      && Clash(t.attempts, id) == Clash(s.attempts, id)
      && (m < |rs| ==> (ApplyRows(t, id, rs[m]).Ok? <==> Follows(s, id, rs, m)))
  {
    if m > 0 {
      InOrderShape(s, id, rs, m - 1);
    }
    SameClash(s.attempts, InOrder(s, id, rs, m).attempts, id);
  }

  lemma SameClash(before: seq<Attempt>, after: seq<Attempt>, id: nat)
    requires id < |before| && |after| == |before| && forall i :: 0 <= i < |before| && i != id ==> after[i] == before[i]
    requires after[id].world == before[id].world && after[id].task == before[id].task
    ensures Clash(after, id) == Clash(before, id)
  {
  }

  /** The first index at or after `m` that is missing from `d`. */
  function Prefix(d: set<nat>, m: nat, n: nat): (p: nat)
    requires m <= n
    ensures m <= p <= n && (forall k :: m <= k < p ==> k in d) && (p < n ==> p !in d)
    decreases n - m
  {
    if m < n && m in d then Prefix(d, m + 1, n) else m
  }

  lemma PrefixGrows(d: set<nat>, e: set<nat>, n: nat)
    requires d <= e
    ensures Prefix(d, 0, n) <= Prefix(e, 0, n) && Prefix(e, Prefix(d, 0, n), n) == Prefix(e, 0, n)
  {
    var p, q := Prefix(d, 0, n), Prefix(e, 0, n);
    var r := Prefix(e, p, n);
    assert forall k :: 0 <= k < p ==> k in d;
    assert r < q ==> r in e;
    assert q < r ==> q in e;
  }

  lemma PrefixStopsAt(d: set<nat>, n: nat, j: nat)
    requires j < n && j !in d
    ensures Prefix(d, 0, n) <= j
  {
  }

  lemma PrefixPasses(d: set<nat>, n: nat, j: nat)
    requires j < n && forall k :: 0 <= k <= j ==> k in d
    ensures Prefix(d, 0, n) > j
  {
  }

  /** The inbox when the receipts of `d` were delivered and the first `m` are applied. */
  function Boxed(s: State, id: nat, rs: seq<Receipt>, d: set<nat>, m: nat): Inbox
    requires id < |s.attempts|
  {
    var base := s.attempts[id].lastSequence;
    s.inbox + map slot | slot in (set k | k in d && k < |rs| :: Slot(id, base + k + 1)) ::
        InboxRow(rs[slot.sequence - base - 1], slot.sequence - base - 1 < m)
  }

  function BoxedState(s: State, id: nat, rs: seq<Receipt>, d: set<nat>, m: nat): State
    requires id < |s.attempts| && m <= |rs|
  {
    InOrder(s, id, rs, m).(inbox := Boxed(s, id, rs, d, m))
  }

  /** What the delivered set alone determines: the longest contiguous prefix is applied in order, the rest waits. */
  function Expected(s: State, id: nat, rs: seq<Receipt>, d: set<nat>): State
    requires id < |s.attempts|
  {
    BoxedState(s, id, rs, d, Prefix(d, 0, |rs|))
  }

  lemma BoxedLookup(s: State, id: nat, rs: seq<Receipt>, d: set<nat>, m: nat, k: nat)
    requires Fresh(s, id, rs) && m <= |rs|
    ensures
      var slot := Slot(id, s.attempts[id].lastSequence + k + 1);
      && (slot in Boxed(s, id, rs, d, m) <==> k in d && k < |rs|)
      && (k in d && k < |rs| ==> Boxed(s, id, rs, d, m)[slot] == InboxRow(rs[k], k < m))
  {
  }

  /** What the box holds at any slot. */
  lemma BoxedAt(s: State, id: nat, rs: seq<Receipt>, d: set<nat>, m: nat, x: Slot)
    requires id < |s.attempts|
    ensures
      var box, i := Boxed(s, id, rs, d, m), x.sequence - s.attempts[id].lastSequence - 1;
      if x.attempt == id && i in d && i < |rs| then x in box && box[x] == InboxRow(rs[i], i < m)
      else (x in box <==> x in s.inbox) && (x in s.inbox ==> box[x] == s.inbox[x])
  {
  }

  lemma BoxedStep(s: State, id: nat, rs: seq<Receipt>, d: set<nat>, m: nat)
    requires Fresh(s, id, rs) && m < |rs| && m in d
    ensures
      var slot := Slot(id, s.attempts[id].lastSequence + m + 1);
      Boxed(s, id, rs, d, m)[slot := InboxRow(rs[m], true)] == Boxed(s, id, rs, d, m + 1)
  {
    hide Boxed, KnownEvent, ValidReceipt;
    var slot := Slot(id, s.attempts[id].lastSequence + m + 1);
    var before, after := Boxed(s, id, rs, d, m)[slot := InboxRow(rs[m], true)], Boxed(s, id, rs, d, m + 1);
    forall x: Slot ensures (x in before <==> x in after) && (x in before ==> before[x] == after[x]) {
      BoxedAt(s, id, rs, d, m, x);
      BoxedAt(s, id, rs, d, m + 1, x);
    }
  }

  lemma BoxedPost(s: State, id: nat, rs: seq<Receipt>, d: set<nat>, m: nat, k: nat)
    requires Fresh(s, id, rs) && m <= k < |rs| && k !in d
    ensures
      var slot := Slot(id, s.attempts[id].lastSequence + k + 1);
      Boxed(s, id, rs, d, m)[slot := InboxRow(rs[k], false)] == Boxed(s, id, rs, d + {k}, m)
  {
    hide Boxed, KnownEvent, ValidReceipt;
    var slot := Slot(id, s.attempts[id].lastSequence + k + 1);
    var before, after := Boxed(s, id, rs, d, m)[slot := InboxRow(rs[k], false)], Boxed(s, id, rs, d + {k}, m);
    forall x: Slot ensures (x in before <==> x in after) && (x in before ==> before[x] == after[x]) {
      BoxedAt(s, id, rs, d, m, x);
      BoxedAt(s, id, rs, d + {k}, m, x);
    }
  }

  lemma RowsIgnoreInbox(t: State, id: nat, r: Receipt, inbox: Inbox)
    requires id < |t.attempts|
    ensures
      var x, y := ApplyRows(t.(inbox := inbox), id, r), ApplyRows(t, id, r);
      (x.Ok? <==> y.Ok?) && (x.Ok? ==> x.value == y.value.(inbox := inbox))
  {
  }

  lemma NextBoxed(s: State, id: nat, rs: seq<Receipt>, d: set<nat>, m: nat)
    requires Fresh(s, id, rs) && m <= |rs| && forall k :: 0 <= k < m ==> Follows(s, id, rs, k)
    ensures
      var t := BoxedState(s, id, rs, d, m);
      && (Waiting(t, id) <==> m in d && m < |rs|)
      && (Waiting(t, id) ==> (ApplyNext(t, id).Ok? <==> Follows(s, id, rs, m)))
      && (Waiting(t, id) && Follows(s, id, rs, m) ==> ApplyNext(t, id).value == BoxedState(s, id, rs, d, m + 1))
  {
    hide ApplyRows, Follows, Boxed, KnownEvent, ValidReceipt;
    InOrderShape(s, id, rs, m);
    BoxedLookup(s, id, rs, d, m, m);
    if m in d && m < |rs| {
      BoxedStep(s, id, rs, d, m);
      RowsIgnoreInbox(InOrder(s, id, rs, m), id, rs[m], Boxed(s, id, rs, d, m));
    }
  }

  /** The loop applies the contiguous run of what is there, or fails when one of that run cannot follow. */
  lemma {:induction false} ContiguousIsPrefix(s: State, id: nat, rs: seq<Receipt>, d: set<nat>, m: nat)
    requires Fresh(s, id, rs) && m <= |rs| && forall k :: 0 <= k < m ==> Follows(s, id, rs, k)
    ensures
      var r, p := ApplyContiguous(BoxedState(s, id, rs, d, m), id), Prefix(d, m, |rs|);
      && (r.Ok? <==> forall k :: m <= k < p ==> Follows(s, id, rs, k))
      && (r.Ok? ==> r.value == BoxedState(s, id, rs, d, p))
    decreases |rs| - m
  {
    hide ApplyNext, Waiting, Follows, BoxedState, KnownEvent, ValidReceipt;
    NextBoxed(s, id, rs, d, m);
    if m < |rs| && m in d && Follows(s, id, rs, m) {
      ContiguousIsPrefix(s, id, rs, d, m + 1);
    }
  }

  lemma KnownInBoxed(s: State, id: nat, rs: seq<Receipt>, d: set<nat>, m: nat, k: nat)
    requires Fresh(s, id, rs) && m <= |rs| && k < |rs|
    ensures KnownEvent(Boxed(s, id, rs, d, m), rs[k].event) <==> k in d
    ensures KnownReceipt(Boxed(s, id, rs, d, m), rs[k]) <==> k in d
  {
    var box, base := Boxed(s, id, rs, d, m), s.attempts[id].lastSequence;
    BoxedLookup(s, id, rs, d, m, k);
    forall slot | slot in box && box[slot].receipt.event == rs[k].event ensures k in d {
      if slot !in s.inbox {
        var i := slot.sequence - base - 1;
        assert i in d && i < |rs| && box[slot].receipt == rs[i];
        assert i < k || i == k || k < i;
      }
    }
  }

  lemma FreshReceipt(s: State, id: nat, rs: seq<Receipt>, d: set<nat>, k: nat)
    requires Fresh(s, id, rs) && k < |rs| && forall i :: 0 <= i < Prefix(d, 0, |rs|) ==> Follows(s, id, rs, i)
    ensures
      var t := Expected(s, id, rs, d);
      && ValidReceipt(rs[k]) && rs[k].attempt == id && id < |t.attempts|
      && (KnownEvent(t.inbox, rs[k].event) <==> k in d) && (KnownReceipt(t.inbox, rs[k]) <==> k in d)
      && t.attempts[id].fence == rs[k].fence && Latest(t.attempts, OfTask(t.attempts[id].task)) == Some(id)
      && (k !in d ==> Slot(id, rs[k].sequence) !in t.inbox && rs[k].sequence > t.attempts[id].lastSequence)
  {
    hide Follows, KnownEvent, KnownReceipt, Boxed;
    var m, t := Prefix(d, 0, |rs|), Expected(s, id, rs, d);
    InOrderShape(s, id, rs, m);
    KnownInBoxed(s, id, rs, d, m, k);
    SameNewest(s.attempts, t.attempts, OfTask(s.attempts[id].task));
    BoxedLookup(s, id, rs, d, m, k);
  }

  /** One delivery, exactly: a known receipt changes nothing; a new one is accepted if and only if every receipt that
      its arrival makes applicable can follow the one before it; and then what was delivered determines the result. */
  lemma DeliveryExactly(s: State, id: nat, rs: seq<Receipt>, d: set<nat>, k: nat)
    requires Fresh(s, id, rs) && k < |rs| && forall i :: 0 <= i < Prefix(d, 0, |rs|) ==> Follows(s, id, rs, i)
    ensures
      var r := Deliver(Expected(s, id, rs, d), rs[k]);
      if k in d then r == Ok(Expected(s, id, rs, d))
      else
        && (r.Ok? <==> forall i :: Prefix(d, 0, |rs|) <= i < Prefix(d + {k}, 0, |rs|) ==> Follows(s, id, rs, i))
        && (r.Ok? ==> r.value == Expected(s, id, rs, d + {k}))
  {
    hide Follows, KnownEvent, KnownReceipt, Boxed, ApplyContiguous, ValidReceipt, InOrder;
    var m, t := Prefix(d, 0, |rs|), Expected(s, id, rs, d);
    FreshReceipt(s, id, rs, d, k);
    if k !in d {
      BoxedPost(s, id, rs, d, m, k);
      assert Post(t, rs[k]) == BoxedState(s, id, rs, d + {k}, m);
      ContiguousIsPrefix(s, id, rs, d + {k}, m);
      PrefixGrows(d, d + {k}, |rs|);
    }
  }

  lemma {:induction false} SameNewest(before: seq<Attempt>, after: seq<Attempt>, key: Key)
    requires |after| == |before|
    requires forall i :: 0 <= i < |before| ==>
        after[i].task == before[i].task && after[i].run == before[i].run && after[i].fence == before[i].fence
    ensures Latest(after, key) == Latest(before, key)
  {
    if before != [] {
      SameNewest(before[..|before| - 1], after[..|after| - 1], key);
    }
  }

  /** Delivers receipts one by one; refused ones leave no trace. */
  function DeliverAll(s: State, rs: seq<Receipt>, ds: seq<nat>): State
    requires forall i :: 0 <= i < |ds| ==> ds[i] < |rs|
  {
    if ds == [] then s
    else
      var t := DeliverAll(s, rs, ds[..|ds| - 1]);
      OrElse(Deliver(t, rs[ds[|ds| - 1]]), t)
  }

  function Elements(ds: seq<nat>): set<nat> {
    set k | k in ds
  }

  ghost predicate AllFollow(s: State, id: nat, rs: seq<Receipt>)
    requires id < |s.attempts|
  {
    forall k :: 0 <= k < |rs| ==> Follows(s, id, rs, k)
  }

  lemma ExpectedNothing(s: State, id: nat, rs: seq<Receipt>)
    requires id < |s.attempts|
    ensures Expected(s, id, rs, {}) == s
  {
    assert Boxed(s, id, rs, {}, 0) == s.inbox;
  }

  /** Any order, with any repetitions: the result is the in-order application of the longest contiguous prefix, with the
      rest waiting. */
  lemma {:induction false} DeliveryIsConfluent(s: State, id: nat, rs: seq<Receipt>, ds: seq<nat>)
    requires Fresh(s, id, rs) && AllFollow(s, id, rs) && forall i :: 0 <= i < |ds| ==> ds[i] < |rs|
    ensures DeliverAll(s, rs, ds) == Expected(s, id, rs, Elements(ds))
  {
    hide Follows, Expected, Deliver, KnownEvent, ValidReceipt;
    if ds == [] {
      ExpectedNothing(s, id, rs);
      assert Elements(ds) == {};
    } else {
      var before, k := ds[..|ds| - 1], ds[|ds| - 1];
      DeliveryIsConfluent(s, id, rs, before);
      DeliveryExactly(s, id, rs, Elements(before), k);
      assert Elements(ds) == Elements(before) + {k};
      assert k in Elements(before) ==> Elements(ds) == Elements(before);
    }
  }

  /** Two deliveries of the same receipts end the same. */
  ghost predicate OrderImmaterial(s: State, rs: seq<Receipt>) {
    forall ds: seq<nat>, es: seq<nat> ::
      (forall i :: 0 <= i < |ds| ==> ds[i] < |rs|) && (forall i :: 0 <= i < |es| ==> es[i] < |rs|)
          && Elements(ds) == Elements(es) ==>
      DeliverAll(s, rs, ds) == DeliverAll(s, rs, es)
  }

  /** When even the first receipt cannot follow, it is refused each time and the others only wait. */
  lemma {:induction false} FirstRefused(s: State, id: nat, rs: seq<Receipt>, ds: seq<nat>)
    requires Fresh(s, id, rs) && |rs| > 0 && !Follows(s, id, rs, 0) && forall i :: 0 <= i < |ds| ==> ds[i] < |rs|
    ensures DeliverAll(s, rs, ds) == Expected(s, id, rs, Elements(ds) - {0})
  {
    hide Follows, Expected, Deliver, KnownEvent, ValidReceipt;
    if ds == [] {
      ExpectedNothing(s, id, rs);
      assert Elements(ds) - {0} == {};
    } else {
      var before, k := ds[..|ds| - 1], ds[|ds| - 1];
      FirstRefused(s, id, rs, before);
      RefusedStays(s, id, rs, Elements(before) - {0}, 0, k);
      assert Elements(ds) - {0} == Elements(before) - {0} + {k} - {0};
    }
  }

  /** First to last. */
  function Upwards(n: nat): (ds: seq<nat>)
    ensures |ds| == n && forall i :: 0 <= i < n ==> ds[i] == i
  {
    if n == 0 then [] else Upwards(n - 1) + [n - 1]
  }

  /** The last `k` of `n`, last first. */
  function Downwards(n: nat, k: nat): (ds: seq<nat>)
    requires k <= n
    ensures |ds| == k && forall i :: 0 <= i < k ==> ds[i] == n - 1 - i
  {
    if k == 0 then [] else Downwards(n, k - 1) + [n - k]
  }

  lemma UpwardsStep(n: nat)
    requires n > 0
    ensures Upwards(n)[..n - 1] == Upwards(n - 1) && Elements(Upwards(n)) == Elements(Upwards(n - 1)) + {n - 1}
  {
    assert Upwards(n) == Upwards(n - 1) + [n - 1];
  }

  lemma DownwardsStep(n: nat, k: nat)
    requires 0 < k <= n
    ensures Downwards(n, k)[..k - 1] == Downwards(n, k - 1)
        && Elements(Downwards(n, k)) == Elements(Downwards(n, k - 1)) + {n - k}
  {
    assert Downwards(n, k) == Downwards(n, k - 1) + [n - k];
  }

  lemma SameElements(n: nat)
    ensures Elements(Upwards(n)) == Elements(Downwards(n, n))
    ensures forall k :: k in Elements(Upwards(n)) <==> 0 <= k < n
  {
    forall k | 0 <= k < n ensures k in Upwards(n) && k in Downwards(n, n) {
      assert Upwards(n)[k] == k && Downwards(n, n)[n - 1 - k] == k;
    }
  }

  /** Once a receipt is refused, it is refused each time, and the others only wait behind it. */
  lemma RefusedStays(s: State, id: nat, rs: seq<Receipt>, d: set<nat>, j: nat, k: nat)
    requires Fresh(s, id, rs) && j < |rs| && k < |rs| && j !in d
    requires !Follows(s, id, rs, j) && forall i :: 0 <= i < j ==> Follows(s, id, rs, i)
    requires k == j ==> forall i :: 0 <= i < j ==> i in d
    ensures OrElse(Deliver(Expected(s, id, rs, d), rs[k]), Expected(s, id, rs, d)) == Expected(s, id, rs, d + {k} - {j})
  {
    hide Follows, Expected, Deliver, Fresh;
    PrefixStopsAt(d, |rs|, j);
    DeliveryExactly(s, id, rs, d, k);
    if k == j {
      PrefixPasses(d + {j}, |rs|, j);
      assert d + {j} - {j} == d;
    } else {
      PrefixStopsAt(d + {k}, |rs|, j);
      assert d + {k} - {j} == d + {k};
      assert k in d ==> d + {k} == d;
    }
  }

  /** In order, receipts are applied up to the first that cannot follow, and nothing after it is. */
  lemma {:induction false} UpwardsStops(s: State, id: nat, rs: seq<Receipt>, j: nat, n: nat)
    requires Fresh(s, id, rs) && j < |rs| && n <= |rs|
    requires !Follows(s, id, rs, j) && forall k :: 0 <= k < j ==> Follows(s, id, rs, k)
    ensures DeliverAll(s, rs, Upwards(n)) == Expected(s, id, rs, Elements(Upwards(n)) - {j})
  {
    hide Follows, Expected, Deliver, KnownEvent, ValidReceipt;
    if n == 0 {
      ExpectedNothing(s, id, rs);
      assert Elements(Upwards(n)) - {j} == {};
    } else {
      var d := Elements(Upwards(n - 1)) - {j};
      UpwardsStops(s, id, rs, j, n - 1);
      UpwardsStep(n);
      SameElements(n - 1);
      RefusedStays(s, id, rs, d, j, n - 1);
      assert Elements(Upwards(n)) - {j} == d + {n - 1} - {j};
    }
  }

  lemma WaitsForFirst(s: State, id: nat, rs: seq<Receipt>, d: set<nat>, k: nat)
    requires Fresh(s, id, rs) && 0 < k < |rs| && 0 !in d
    ensures OrElse(Deliver(Expected(s, id, rs, d), rs[k]), Expected(s, id, rs, d)) == Expected(s, id, rs, d + {k})
  {
    hide Follows, Expected, Deliver, Fresh;
    assert Prefix(d, 0, |rs|) == 0 && Prefix(d + {k}, 0, |rs|) == 0;
    DeliveryExactly(s, id, rs, d, k);
    assert k in d ==> d + {k} == d;
  }

  /** Last first, everything waits for the first receipt, whose arrival is refused with all that would follow it. */
  lemma {:induction false} DownwardsWaits(s: State, id: nat, rs: seq<Receipt>, k: nat)
    requires Fresh(s, id, rs) && k < |rs|
    ensures DeliverAll(s, rs, Downwards(|rs|, k)) == Expected(s, id, rs, Elements(Downwards(|rs|, k)))
  {
    hide Follows, Expected, Deliver, KnownEvent, ValidReceipt;
    if k == 0 {
      ExpectedNothing(s, id, rs);
      assert Elements(Downwards(|rs|, k)) == {};
    } else {
      DownwardsWaits(s, id, rs, k - 1);
      DownwardsStep(|rs|, k);
      WaitsForFirst(s, id, rs, Elements(Downwards(|rs|, k - 1)), |rs| - k);
    }
  }

  lemma DownwardsAborts(s: State, id: nat, rs: seq<Receipt>, j: nat)
    requires Fresh(s, id, rs) && j < |rs| && !Follows(s, id, rs, j)
    ensures DeliverAll(s, rs, Downwards(|rs|, |rs|)) == Expected(s, id, rs, Elements(Downwards(|rs|, |rs|)) - {0})
  {
    hide Follows, Expected, Deliver, Fresh;
    var n := |rs|;
    var d := Elements(Downwards(n, n - 1));
    DownwardsWaits(s, id, rs, n - 1);
    DownwardsStep(n, n);
    SameElements(n);
    assert 0 !in d;
    DeliveryExactly(s, id, rs, d, 0);
    assert d + {0} == Elements(Downwards(n, n));
    assert Prefix(d + {0}, 0, n) == n;
    assert Elements(Downwards(n, n)) - {0} == d;
  }

  /** The exact limit of confluence. The order of delivery is immaterial if and only if every receipt can follow its
      predecessor, unless not even the first can; otherwise an out-of-order delivery loses receipts that an in-order
      delivery applies. */
  lemma OrderImmaterialExactly(s: State, id: nat, rs: seq<Receipt>)
    requires Fresh(s, id, rs) && |rs| > 0
    ensures OrderImmaterial(s, rs) <==> (Follows(s, id, rs, 0) ==> AllFollow(s, id, rs))
  {
    if AllFollow(s, id, rs) {
      forall ds: seq<nat>, es: seq<nat> |
        (forall i :: 0 <= i < |ds| ==> ds[i] < |rs|) && (forall i :: 0 <= i < |es| ==> es[i] < |rs|)
            && Elements(ds) == Elements(es)
        ensures DeliverAll(s, rs, ds) == DeliverAll(s, rs, es)
      {
        DeliveryIsConfluent(s, id, rs, ds);
        DeliveryIsConfluent(s, id, rs, es);
      }
    } else if !Follows(s, id, rs, 0) {
      forall ds: seq<nat>, es: seq<nat> |
        (forall i :: 0 <= i < |ds| ==> ds[i] < |rs|) && (forall i :: 0 <= i < |es| ==> es[i] < |rs|)
            && Elements(ds) == Elements(es)
        ensures DeliverAll(s, rs, ds) == DeliverAll(s, rs, es)
      {
        FirstRefused(s, id, rs, ds);
        FirstRefused(s, id, rs, es);
      }
    } else {
      var j := FirstBad(s, id, rs, 0);
      OrdersDiffer(s, id, rs, j);
    }
  }

  function FirstBad(s: State, id: nat, rs: seq<Receipt>, from: nat): (j: nat)
    requires id < |s.attempts| && from <= |rs| && exists k :: from <= k < |rs| && !Follows(s, id, rs, k)
    ensures from <= j < |rs| && !Follows(s, id, rs, j) && forall k :: from <= k < j ==> Follows(s, id, rs, k)
    decreases |rs| - from
  {
    if !Follows(s, id, rs, from) then from else FirstBad(s, id, rs, from + 1)
  }

  lemma ExpectedSequence(s: State, id: nat, rs: seq<Receipt>, d: set<nat>, j: nat)
    requires Fresh(s, id, rs) && j <= |rs| && (forall k :: 0 <= k < j ==> Follows(s, id, rs, k) && k in d)
        && (j < |rs| ==> j !in d)
    ensures id < |Expected(s, id, rs, d).attempts| && Expected(s, id, rs, d).attempts[id].lastSequence
        == s.attempts[id].lastSequence + j
  {
    hide Follows, KnownEvent, ValidReceipt;
    var p := Prefix(d, 0, |rs|);
    assert p == j;
    InOrderShape(s, id, rs, j);
  }

  lemma OrdersDiffer(s: State, id: nat, rs: seq<Receipt>, j: nat)
    requires Fresh(s, id, rs) && 0 < j < |rs| && !Follows(s, id, rs, j) && forall k :: 0 <= k < j ==>
        Follows(s, id, rs, k)
    ensures !OrderImmaterial(s, rs)
    ensures
      var t := DeliverAll(s, rs, Upwards(|rs|));
      id < |t.attempts| && t.attempts[id].lastSequence == s.attempts[id].lastSequence + j
    ensures
      var t := DeliverAll(s, rs, Downwards(|rs|, |rs|));
      id < |t.attempts| && t.attempts[id].lastSequence == s.attempts[id].lastSequence
  {
    hide Follows, Expected, Deliver, KnownEvent, ValidReceipt, DeliverAll;
    var n := |rs|;
    var ups, downs := Upwards(n), Downwards(n, n);
    UpwardsStops(s, id, rs, j, n);
    DownwardsAborts(s, id, rs, j);
    SameElements(n);
    ExpectedSequence(s, id, rs, Elements(ups) - {j}, j);
    ExpectedSequence(s, id, rs, Elements(downs) - {0}, 0);
    assert DeliverAll(s, rs, ups) != DeliverAll(s, rs, downs);
  }

  // ---- A run in which the order matters ----

  const CLAIM: seq<Op> := [AddTask, ClaimOp(0, 0, 0, 0, None, true, Admission(None, true, None, None))]

  const CLAIMED := State(
    [Attempt(0, 0, None, 0, 1, DispatchPending, 0, 0, None)],
    [Task(Queued, None, None, None)],
    map[],
    map[0 := Outbox(Command(0, 0, 0, 0, 1, 0, 0, None, true), Ready)],
    map[], 0)

  /** The attempt starts, completes, and is reported as failed afterwards. */
  const REPORTS: seq<Receipt> := [
    Receipt(Fact("started"), 0, 1, 1, Running, None, None),
    Receipt(Fact("completed"), 0, 2, 1, Completed, None, None),
    Receipt(Fact("failed"), 0, 3, 1, Failed, None, None)]

  /** How far the receipts of the first attempt have been applied. */
  function Sequence(s: State): Option<nat> {
    if s.attempts == [] then None else Some(s.attempts[0].lastSequence)
  }

  lemma ReachesClaimed()
    ensures Run(INITIAL, CLAIM) == CLAIMED
  {
    assert CLAIM[..1] == [AddTask] && [AddTask][..0] == [];
    var added := INITIAL.(tasks := [Task(Queued, None, None, None)]);
    assert Run(INITIAL, [AddTask]) == added;
    assert Step(added, CLAIM[1]) == CLAIMED;
  }

  lemma ReportsAreFresh()
    ensures Fresh(CLAIMED, 0, REPORTS)
  {
    assert CLAIMED.attempts[..0] == [];
    assert Latest(CLAIMED.attempts, OfTask(0)) == Some(0);
  }

  /** "The order of delivery is immaterial" fails of the code: after a claim, a late failure report costs nothing when
      it comes last, and costs the attempt its start and its completion when it comes first. */
  lemma OrderCanMatter()
    ensures
      var s := Run(INITIAL, CLAIM);
      && Fresh(s, 0, REPORTS) && Follows(s, 0, REPORTS, 0) && !AllFollow(s, 0, REPORTS)
      && Sequence(DeliverAll(s, REPORTS, [0, 1, 2])) == Some(2)
          && Sequence(DeliverAll(s, REPORTS, [2, 1, 0])) == Some(0)
  {
    hide DeliverAll, Fresh, Run, OrderImmaterial;
    ReachesClaimed();
    ReportsAreFresh();
    assert !Clash(CLAIMED.attempts, 0);
    assert !Follows(CLAIMED, 0, REPORTS, 2);
    OrdersDiffer(CLAIMED, 0, REPORTS, 2);
    assert Upwards(3) == [0, 1, 2] && Downwards(3, 3) == [2, 1, 0];
  }
}
