/** What a call is charged (company_model_ledger.ts, owner_company_budget.ts, usage_meter.ts), said of the counts the
    provider reported and the prices the permit keeps. */
module Bills {
  import opened Wrappers
  import opened Money
  import opened Ledger

  /** A count that can be used: a safe non-negative integer. */
  predicate Usable(v: Option<int>) {
    v.Some? && 0 <= v.value <= MAX_SAFE_INTEGER
  }

  /** Unreported cached tokens are none. */
  function Cached(u: Usage): nat {
    if Usable(u.cached) then u.cached.value else 0
  }

  /** The provider's own price is enough to know that a call has one. Otherwise the cached count must be given, unless
      it makes no difference, must fit the prompt, and needs a price of its own. */
  predicate Priced(p: Price, u: Usage) {
    && Usable(u.prompt) && Usable(u.completion)
    && (u.costGiven
        || (&& (Usable(u.cached) || p.cached == Some(p.input))
            && Cached(u) <= u.prompt.value
            && (Cached(u) > 0 ==> p.cached.Some?)))
  }

  /** At most six decimals. */
  predicate Precise(d: Decimal) {
    |d.fraction| <= 6
  }

  predicate PreciseAll(p: Price) {
    Precise(p.input) && Precise(p.output) && (p.cached.Some? ==> Precise(p.cached.value))
  }

  /** The price of cached tokens, or else that of the prompt. */
  function CachedRate(p: Price): Decimal {
    if p.cached.Some? then p.cached.value else p.input
  }

  /** Millionths of a micro: every token at its own rate, cached tokens at theirs. */
  function Due(p: Price, u: Usage): int
    requires PreciseAll(p) && Usable(u.prompt) && Usable(u.completion) && Cached(u) <= u.prompt.value
  {
    (u.prompt.value - Cached(u)) * Rate(p.input).value + u.completion.value * Rate(p.output).value
    + Cached(u) * Rate(CachedRate(p)).value
  }

  /** The least whole number of micros that covers an amount. */
  predicate Least(micros: nat, due: int) {
    due <= micros * MILLION && (micros > 0 ==> (micros - 1) * MILLION < due)
  }

  /** There is one, and it is within a bound exactly when the amount is. */
  lemma RoundsUp(due: nat)
    ensures Least((due + 999_999) / MILLION, due)
    ensures (due + 999_999) / MILLION > MAX_SAFE_INTEGER <==> due > MAX_SAFE_INTEGER * MILLION
  {
  }

  lemma LeastIsUnique(m: nat, n: nat, due: int)
    requires Least(m, due) && Least(n, due)
    ensures m == n
  {
  }

  /** The token count on the bill: the one reported, or the sum of its parts. */
  function Total(u: Usage): Option<nat> {
    if Usable(u.actual) then Some(u.actual.value)
    else if Usable(u.prompt) && Usable(u.completion) then Some(u.prompt.value + u.completion.value)
    else None
  }

  lemma RatesOf(d: Decimal)
    ensures Rate(d).Ok? <==> Precise(d)
    ensures Rate(d).Err? ==> Rate(d).error == "MODEL_PRICE_PRECISION_UNSUPPORTED"
  {
  }

  lemma DueIsCost(p: Price, u: Usage)
    requires PreciseAll(p) && Usable(u.prompt) && Usable(u.completion) && Cached(u) <= u.prompt.value
    ensures Due(p, u) == ExactCost(Rate(p.input).value, Rate(p.output).value, Rate(CachedPrice(p)).value,
        u.prompt.value, u.completion.value, Cached(u))
  {
  }

  ghost predicate IsBill(b: Result<Option<Bill>>, p: Price, u: Usage)
    requires PreciseAll(p) && Usable(u.prompt) && Usable(u.completion) && Cached(u) <= u.prompt.value
  {
    b.Ok? && b.value.Some? && Total(u) == Some(b.value.value.tokens) && Least(b.value.value.micros, Due(p, u))
  }

  /** The bill of a usage that has one. */
  lemma BillIsLeast(p: Price, u: Usage)
    requires Priced(p, u)
    ensures Total(u).Some? && ActualTokens(u) == Total(u)
    ensures
      if Cached(u) > u.prompt.value then BillOf(p, u) == Err("USAGE_UNKNOWN")
      else if !PreciseAll(p) then BillOf(p, u) == Err("MODEL_PRICE_PRECISION_UNSUPPORTED")
      else if Due(p, u) > MAX_SAFE_INTEGER * MILLION then BillOf(p, u) == Err("OWNER_MONEY_INVALID")
      else IsBill(BillOf(p, u), p, u)
  {
    hide Due, ExactCost, Least;
    RatesOf(p.input);
    RatesOf(p.output);
    RatesOf(CachedPrice(p));
    assert CachedPrice(p) == CachedRate(p);
    if Cached(u) <= u.prompt.value && PreciseAll(p) {
      DueIsCost(p, u);
      RoundsUp(Due(p, u));
    }
  }

  lemma NoBill(p: Price, u: Usage)
    requires !Priced(p, u)
    ensures BillOf(p, u) == Ok(None) && ActualTokens(u) == Total(u)
  {
  }

  /** The row a first response leaves. */
  ghost predicate Charged(p: Permit, u: Usage, q: Permit) {
    && q.state.Settled? && q.actualTokens == Total(u) && q.settledMicros.Some?
    && PreciseAll(p.price) && Usable(u.prompt) && Usable(u.completion) && Cached(u) <= u.prompt.value
    && Least(q.settledMicros.value, Due(p.price, u))
  }

  /** The settlement is above what the permit reserved, in tokens or in money. */
  predicate Exceeds(p: Permit, q: Permit) {
    && q.actualTokens.Some? && q.settledMicros.Some?
    && (q.actualTokens.value > p.overhead + p.output || q.settledMicros.value > p.reservedMicros)
  }

  /** What a first response is charged. A priced usage settles the permit at the least whole micro that covers every
      reported token at its rate, with the reported token count, and raises the hold exactly if either exceeds what was
      reserved. Any other leaves the bill unknown, for the owner. */
  lemma ResponseIsChargedExactly(s: State, id: nat, response: Response)
    requires id < |s.permits| && s.permits[id].response.None? && Respond(s, id, response).Ok?
    ensures
      var t, p, u := Respond(s, id, response).value, s.permits[id], response.usage;
      && |t.permits| == |s.permits|
      && var q := t.permits[id];
      && t == s.(permits := s.permits[id := q], safetyHold := t.safetyHold)
      && q == p.(state := q.state, settledMicros := q.settledMicros, actualTokens := q.actualTokens,
          response := Some(response))
      && (Priced(p.price, u) ==>
            Charged(p, u, q) && t.safetyHold == if Exceeds(p, q) then Some(id) else s.safetyHold)
      && (!Priced(p.price, u) ==>
            && q.state.Unknown? && q.actualTokens == Total(u) && q.settledMicros == p.settledMicros
            && t.safetyHold == s.safetyHold)
  {
    hide BillOf, ActualTokens, Total, Priced, Due, Least;
    var p, u := s.permits[id], response.usage;
    if Priced(p.price, u) {
      BillIsLeast(p.price, u);
      PricedIsUsable(p.price, u);
    } else {
      NoBill(p.price, u);
    }
  }

  lemma PricedIsUsable(p: Price, u: Usage)
    requires Priced(p, u)
    ensures Usable(u.prompt) && Usable(u.completion)
  {
  }

  /** Whether a settlement entered by hand is the bill of a usage. */
  ghost predicate Agrees(p: Permit, u: Usage)
    requires PreciseAll(p.price) && Usable(u.prompt) && Usable(u.completion) && Cached(u) <= u.prompt.value
  {
    p.actualTokens == Total(u) && p.settledMicros.Some? && Least(p.settledMicros.value, Due(p.price, u))
  }

  /** Why a first response is refused. */
  lemma ResponseIsRefusedExactly(s: State, id: nat, response: Response)
    requires id < |s.permits| && s.permits[id].response.None? && !s.permits[id].state.NotSent?
    ensures
      var p, u, r := s.permits[id], response.usage, Respond(s, id, response);
      if !Priced(p.price, u) then r.Ok? <==> !p.state.Settled?
      else if Cached(u) > u.prompt.value then r == Err("USAGE_UNKNOWN")
      else if !PreciseAll(p.price) then r == Err("MODEL_PRICE_PRECISION_UNSUPPORTED")
      else if Due(p.price, u) > MAX_SAFE_INTEGER * MILLION then r == Err("OWNER_MONEY_INVALID")
      else if p.state.Settled? && !Agrees(p, u) then r == Err("OWNER_BILLING_RECEIPT_CONFLICT")
      else r.Ok?
    ensures Respond(s, id, response) == Err("USAGE_UNKNOWN") <==>
      Priced(s.permits[id].price, response.usage) && Cached(response.usage) > response.usage.prompt.value
  {
    hide BillOf, ActualTokens, Total, Due, Least;
    var p, u := s.permits[id], response.usage;
    if Priced(p.price, u) {
      BillIsLeast(p.price, u);
      var b := BillOf(p.price, u);
      if b.Ok? && p.settledMicros.Some? && Agrees(p, u) {
        LeastIsUnique(b.value.value.micros, p.settledMicros.value, Due(p.price, u));
      }
    } else {
      NoBill(p.price, u);
    }
  }

  // ---- Reservations ----

  /** The dearer of the prompt and cached prices. */
  function Dearer(p: Price): Decimal {
    if Cheaper(p.input, CachedRate(p)) then CachedRate(p) else p.input
  }

  /** Output tokens a call may use: work on a goal is capped. */
  function Limit(call: Call): int {
    if call.goalBound && call.maxTokens > 8192 then 8192 else call.maxTokens
  }

  predicate Reservable(call: Call) {
    && call.price.Some? && 0 < Limit(call) <= MAX_SAFE_INTEGER && call.messageBytes + 1024 <= MAX_SAFE_INTEGER
    && Precise(Dearer(call.price.value)) && Precise(call.price.value.output)
    && (call.price.value.cached.Some? ==> Precise(call.price.value.cached.value))
  }

  /** What a call could cost at most, in millionths of a micro: its message and a margin at the dearer rate, its output
      at the output rate. */
  function Most(call: Call): int
    requires Reservable(call)
  {
    var p := call.price.value;
    (call.messageBytes + 1024) * Rate(Dearer(p)).value + Limit(call) * Rate(p.output).value
  }

  lemma ReserveIsLeast(call: Call)
    requires call.price.Some? && Limit(call) > 0
    ensures
      var r := ReserveMicros(call.price.value, call.messageBytes + 1024, Limit(call));
      && (r.Ok? <==> Reservable(call) && Most(call) <= MAX_SAFE_INTEGER * MILLION)
      && (r.Ok? ==> Least(r.value, Most(call)) && Most(call) >= 0)
  {
    hide Least, Cheaper;
    var p := call.price.value;
    RatesOf(Dearer(p));
    RatesOf(p.output);
    RatesOf(CachedPrice(ReservePrice(p)));
    if Reservable(call) {
      var cost := MostIsCost(call);
      RoundsUp(cost);
    }
  }

  lemma MostIsCost(call: Call) returns (cost: nat)
    requires Reservable(call)
    ensures cost == Most(call)
    ensures
      var q := ReservePrice(call.price.value);
      && Rate(CachedPrice(q)).Ok?
      && cost == ExactCost(Rate(q.input).value, Rate(q.output).value, Rate(CachedPrice(q)).value,
          call.messageBytes + 1024, Limit(call), 0)
  {
    hide Cheaper;
    var p := call.price.value;
    var q := ReservePrice(p);
    RatesOf(CachedPrice(q));
    cost := ExactCost(Rate(q.input).value, Rate(q.output).value, Rate(CachedPrice(q)).value,
        call.messageBytes + 1024, Limit(call), 0);
  }

  /** Micros of the period that are neither spent nor held. */
  function Room(s: State): int {
    s.budget.totalMicros - Spent(s) - Held(s)
  }

  predicate Admitting(s: State) {
    && s.on && !s.maintenance && s.safetyHold.None? && !s.schedulerHold
    && s.budget.activated && !s.budget.refillRequired && Room(s) > 0
  }

  /** Every permit of the source is proved unsent. */
  predicate Free(s: State, source: Option<Source>) {
    source.Some? ==> forall i :: 0 <= i < |s.permits| && s.permits[i].source == source ==> s.permits[i].state.NotSent?
  }

  /** A permit is granted if and only if automation is on, the checks around it do not object, its source has no other
      that may have been sent, and what it could cost at most fits into what is left. Its row then holds the least whole
      micro that covers that cost, with the limits it was computed from. */
  lemma PermitIsGrantedExactly(s: State, call: Call)
    ensures
      var t := Prepare(s, call).next;
      && (|t.permits| > |s.permits| <==>
            && Reservable(call) && Most(call) <= MAX_SAFE_INTEGER * MILLION && Most(call) <= Room(s) * MILLION
            && Admitting(s) && call.denied.None? && Free(s, call.source))
      && (|t.permits| <= |s.permits| ==> t == s)
      && (|t.permits| > |s.permits| ==>
            && |t.permits| == |s.permits| + 1
            && var q := t.permits[|s.permits|];
            && t == s.(permits := s.permits + [q]) && Reservable(call) && Least(q.reservedMicros, Most(call))
            && q == Permit(Sent, call.source, call.request, call.price.value, call.messageBytes + 1024, Limit(call),
                q.reservedMicros, None, None, None)
            && Prepare(s, call).result == Ok(Granted(|s.permits|)))
  {
    hide ReserveMicros, Sum, Most, Least, Reservable;
    if call.price.Some? && Limit(call) > 0 {
      ReserveIsLeast(call);
      var r := ReserveMicros(call.price.value, call.messageBytes + 1024, Limit(call));
      if r.Ok? { LeastFits(r.value, Most(call), Room(s)); }
    }
    NeedsPrice(call);
  }

  lemma NeedsPrice(call: Call)
    ensures Reservable(call) ==> call.price.Some? && 0 < Limit(call) <= MAX_SAFE_INTEGER
  {
  }

  lemma LeastFits(m: nat, due: int, room: int)
    requires Least(m, due) && due >= 0
    ensures due <= room * MILLION <==> m <= room
  {
  }

  /** Whether more money is missing, or only the outcome of calls that hold it. */
  function Short(s: State, call: Call): string
    requires Reservable(call)
  {
    if !Dry(s) && Held(s) > 0 && Most(call) <= (s.budget.totalMicros - Spent(s)) * MILLION
    then "OWNER_COMPANY_BUDGET_BUSY" else "OWNER_COMPANY_BUDGET_EXHAUSTED"
  }

  /** The permit of the source that may have been sent. */
  predicate Taken(s: State, source: Option<Source>, i: nat) {
    source.Some? && i < |s.permits| && s.permits[i].source == source && !s.permits[i].state.NotSent?
  }

  /** What a request is told that gets no permit, for the first of these reasons that applies: maintenance, automation
      off, a call that exceeded its reservation, a failed scheduler, no budget, no money, the checks around it, its own
      earlier call, and money short for this call. */
  lemma RefusalSaysWhy(s: State, call: Call)
    requires Inv(s) && Reservable(call) && Most(call) <= MAX_SAFE_INTEGER * MILLION
    requires call.denied != Some("OWNER_COMPANY_BUDGET_EXHAUSTED")
    ensures
      var r := Prepare(s, call).result;
      if s.maintenance then r == Err("EVOLUTION_QUIESCED")
      else if !s.on then r == Err("OWNER_AUTOMATION_OFF")
      else if s.safetyHold.Some? then r == Err("OWNER_PROVIDER_USAGE_EXCEEDED_RESERVATION")
      else if s.schedulerHold then r == Err("OWNER_SCHEDULER_FAILED")
      else if !s.budget.activated then r == Err("OWNER_COMPANY_BUDGET_REQUIRED")
      else if s.budget.refillRequired || Room(s) <= 0 then r == Err(Short(s, call))
      else if call.denied.Some? then r == Err(call.denied.value)
      else if !Free(s, call.source) then forall i: nat :: Taken(s, call.source, i) ==>
        r == (if s.permits[i].request != call.request then Err("IDEMPOTENCY_CONFLICT")
              else if s.permits[i].response.Some? then Ok(Replayed(i, s.permits[i].response.value))
              else if s.permits[i].state.Sent? then Err("OWNER_CALL_IN_FLIGHT")
              else if s.permits[i].state.Unknown? then Err("OWNER_OUTCOME_REVIEW_REQUIRED")
              else Err("OWNER_CALL_RECEIPT_REQUIRED"))
      else if Most(call) > Room(s) * MILLION then r == Err(Short(s, call))
      else r == Ok(Granted(|s.permits|))
  {
    hide ReserveMicros, Sum, Most, Least, Reservable, Inv, LivePermit, Taken, Free;
    NeedsPrice(call);
    ReserveIsLeast(call);
    var micros := ReserveMicros(call.price.value, call.messageBytes + 1024, Limit(call)).value;
    LeastFits(micros, Most(call), Room(s));
    LeastFits(micros, Most(call), s.budget.totalMicros - Spent(s));
    TakenIsLive(s, call.source);
  }

  lemma TakenIsLive(s: State, source: Option<Source>)
    requires Inv(s)
    ensures Free(s, source) <==> source.None? || LivePermit(s.permits, source.value).None?
    ensures forall i: nat :: Taken(s, source, i) ==> LivePermit(s.permits, source.value) == Some(i)
  {
    hide PermitOk;
    forall i: nat | Taken(s, source, i) ensures LivePermit(s.permits, source.value) == Some(i) {
      var j := LivePermit(s.permits, source.value).value;
      assert i < j || j < i || i == j;
    }
  }

  // ---- What the owner decides ----

  /** A bill entered by hand settles a call of unknown outcome at that amount, whatever was reserved, and no other call;
      no hold is raised by it. */
  lemma OwnerSettlesExactly(s: State, id: nat, tokens: nat, micros: nat)
    ensures
      var t := Step(s, ReconcileOp(id, tokens, micros));
      if id < |s.permits| && s.permits[id].state.Unknown?
      then t == s.(permits := s.permits[id := s.permits[id].(state := Settled, settledMicros := Some(micros),
          actualTokens := Some(tokens))])
        && Spent(t) == Spent(s) + micros && Held(t) == Held(s) - s.permits[id].reservedMicros
      else t == s
  {
    if id < |s.permits| && s.permits[id].state.Unknown? {
      var q := s.permits[id].(state := Settled, settledMicros := Some(micros), actualTokens := Some(tokens));
      SumUpdate(SpentOf, s.permits, id, q);
      SumUpdate(HeldOf, s.permits, id, q);
    }
  }

  /** A call proved never billed gives its money back, if its outcome was unknown and a World made it. */
  lemma WaiverExactly(s: State, id: nat)
    ensures
      var t := Step(s, ConfirmNotBilledOp(id));
      if id < |s.permits| && s.permits[id].state.Unknown? && s.permits[id].source.Some?
          && s.permits[id].source.value.kind.World?
      then t == s.(permits := s.permits[id := s.permits[id].(state := NotSent, actualTokens := Some(0))])
        && Spent(t) == Spent(s) && Held(t) == Held(s) - s.permits[id].reservedMicros
      else t == s
  {
    if Step(s, ConfirmNotBilledOp(id)) != s {
      var q := s.permits[id].(state := NotSent, actualTokens := Some(0));
      SumUpdate(SpentOf, s.permits, id, q);
      SumUpdate(HeldOf, s.permits, id, q);
    }
  }

  /** The period has run out of money, or a call was refused for it. */
  predicate Dry(s: State) {
    s.budget.refillRequired || (s.budget.activated && s.budget.totalMicros <= Spent(s))
  }

  /** A new period is granted exactly for a valid amount, the revision the owner saw, at least what is held, and another
      number of tokens if the last period ran dry; it then has room for that amount less what is held. */
  lemma PeriodStartsExactly(s: State, millions: int, rate: int, revision: int)
    ensures
      var r := Configure(s, millions, rate, revision);
      && (r.Ok? <==>
            && 1 <= millions <= 10000 && 0 < rate <= MAX_SAFE_INTEGER && millions * rate <= MAX_SAFE_INTEGER
            && s.budget.revision == revision && Held(s) <= millions * rate
            && !(Dry(s) && s.budget.tokenMillions == Some(millions))
            && Spent(s) + millions * rate <= MAX_SAFE_INTEGER)
      && (r.Ok? ==>
            var t := r.value;
            && t == s.(budget := t.budget) && Room(t) == millions * rate - Held(s)
            && t.budget.activated && !t.budget.refillRequired && t.budget.baseline == Spent(s)
            && t.budget.tokenMillions == Some(millions) && t.budget.rate == rate
            && t.budget.revision == s.budget.revision + 1)
  {
    hide Sum;
    if 1 <= millions <= 10000 && 0 < rate { Positive(millions, rate); }
  }

  lemma Positive(a: int, b: int)
    requires a > 0 && b > 0
    ensures a * b > 0
  {
  }
}
