/** Prices, bills and the integer cost of a call (owner_company_budget.ts, usage_meter.ts). */
module Money {
  import opened Wrappers

  const MAX_SAFE_INTEGER: nat := 0x1F_FFFF_FFFF_FFFF
  const MILLION: nat := 1_000_000

  predicate SafeCount(n: int) {
    0 <= n <= MAX_SAFE_INTEGER
  }

  /** A price as it prints: whole part, and the digits after the decimal point, most significant first. */
  datatype Decimal = Decimal(whole: nat, fraction: seq<Digit>)

  type Digit = n: nat | n < 10

  datatype Price = Price(input: Decimal, output: Decimal, cached: Option<Decimal>)

  /** What the provider reported. `costGiven` says that it sent a usable price of its own. */
  datatype Usage = Usage(prompt: Option<int>, completion: Option<int>, cached: Option<int>, actual: Option<int>,
      costGiven: bool)

  datatype Bill = Bill(tokens: nat, micros: nat)

  function Pow10(n: nat): (p: nat)
    ensures p > 0
  {
    if n == 0 then 1 else 10 * Pow10(n - 1)
  }

  /** The number a digit string spells. */
  function Digits(ds: seq<Digit>): nat {
    if ds == [] then 0 else 10 * Digits(ds[..|ds| - 1]) + ds[|ds| - 1]
  }

  /** `padEnd(6, '0')`. */
  function PadEnd(ds: seq<Digit>, width: nat): seq<Digit>
    decreases width - |ds|
  {
    if |ds| >= width then ds else PadEnd(ds + [0], width)
  }

  /** Micro-yuan per million tokens; at most six decimals are accepted. */
  function Rate(d: Decimal): Result<nat> {
    if |d.fraction| > 6 then Err("MODEL_PRICE_PRECISION_UNSUPPORTED")
    else Ok(d.whole * MILLION + Digits(PadEnd(d.fraction, 6)))
  }

  lemma TenTimes(a: nat, b: nat)
    ensures 10 * a * b == a * (10 * b)
  {
  }

  lemma {:induction false} PadEndScales(ds: seq<Digit>, width: nat)
    requires |ds| <= width
    ensures Digits(PadEnd(ds, width)) == Digits(ds) * Pow10(width - |ds|)
    decreases width - |ds|
  {
    if |ds| < width {
      PadEndScales(ds + [0], width);
      assert (ds + [0])[..|ds|] == ds;
      TenTimes(Digits(ds), Pow10(width - |ds| - 1));
    }
  }

  /** The printed price times 10^k, where k is its number of decimals. */
  function Scaled(d: Decimal): nat {
    d.whole * Pow10(|d.fraction|) + Digits(d.fraction)
  }

  lemma Pow10Splits(k: nat)
    requires k <= 6
    ensures Pow10(6 - k) * Pow10(k) == MILLION
  {
    assert Pow10(1) == 10 && Pow10(2) == 100 && Pow10(3) == 1000;
    assert Pow10(4) == 10_000 && Pow10(5) == 100_000 && Pow10(6) == 1_000_000;
  }

  /** No rounding takes place when a price is read. */
  lemma RateIsExact(d: Decimal)
    requires |d.fraction| <= 6
    ensures Rate(d).Ok?
    ensures Rate(d).value * Pow10(|d.fraction|) == Scaled(d) * MILLION
  {
    var k := |d.fraction|;
    PadEndScales(d.fraction, 6);
    Pow10Splits(k);
    ExactScaling(d.whole, Digits(d.fraction), Pow10(k), Pow10(6 - k));
  }

  lemma ExactScaling(w: nat, f: nat, p: nat, q: nat)
    requires q * p == MILLION
    ensures (w * MILLION + f * q) * p == (w * p + f) * MILLION
  {
    assert f * q * p == f * (q * p);
    assert (w * MILLION + f * q) * p == w * MILLION * p + f * q * p;
  }

  /** `Math.max` compares the prices themselves, whatever their precision. */
  predicate Cheaper(a: Decimal, b: Decimal) {
    Scaled(a) * Pow10(|b.fraction|) < Scaled(b) * Pow10(|a.fraction|)
  }

  lemma CheaperComparesRates(a: Decimal, b: Decimal)
    requires Rate(a).Ok? && Rate(b).Ok?
    ensures Cheaper(a, b) <==> Rate(a).value < Rate(b).value
  {
    RateIsExact(a);
    RateIsExact(b);
    CompareScaled(Rate(a).value, Rate(b).value, Pow10(|a.fraction|), Pow10(|b.fraction|), Scaled(a), Scaled(b));
  }

  lemma CompareScaled(ra: nat, rb: nat, pa: nat, pb: nat, na: nat, nb: nat)
    requires pa > 0 && pb > 0
    requires ra * pa == na * MILLION && rb * pb == nb * MILLION
    ensures na * pb < nb * pa <==> ra < rb
  {
    var p := pa * pb;
    assert ra * p == na * pb * MILLION by {
      assert ra * p == ra * pa * pb;
      assert na * MILLION * pb == na * pb * MILLION;
    }
    assert rb * p == nb * pa * MILLION by {
      assert rb * p == rb * pb * pa;
      assert nb * MILLION * pa == nb * pa * MILLION;
    }
    if ra < rb {
      StrictMul(ra, rb, p);
    } else {
      MulMonotone(rb, ra, p, p);
    }
  }

  lemma StrictMul(a: nat, b: nat, p: nat)
    requires a < b && p > 0
    ensures a * p < b * p
  {
    assert b * p == a * p + (b - a) * p;
  }

  function CachedPrice(p: Price): Decimal {
    if p.cached.Some? then p.cached.value else p.input
  }

  /** The exact cost in millionths of a micro. */
  function ExactCost(inRate: nat, outRate: nat, cachedRate: nat, input: nat, output: nat, cached: nat): nat
    requires cached <= input
  {
    (input - cached) * inRate + output * outRate + cached * cachedRate
  }

  /** `modelCostMicros`: rounded up to a whole micro. */
  function CostMicros(p: Price, input: int, output: int, cached: int): (r: Result<nat>)
    ensures r.Ok? ==> SafeCount(r.value)
  {
    if !SafeCount(input) || !SafeCount(output) || !SafeCount(cached) || cached > input then Err("USAGE_UNKNOWN")
    else
      var i, o, c := Rate(p.input), Rate(p.output), Rate(CachedPrice(p));
      if i.Err? then Err(i.error)
      else if o.Err? then Err(o.error)
      else if c.Err? then Err(c.error)
      else
        var micros := (ExactCost(i.value, o.value, c.value, input, output, cached) + 999_999) / MILLION;
        if micros > MAX_SAFE_INTEGER then Err("OWNER_MONEY_INVALID") else Ok(micros)
  }

  /** Rounding never undercharges and adds less than one micro. */
  lemma CostRoundsUpByLessThanOneMicro(p: Price, input: nat, output: nat, cached: nat)
    requires CostMicros(p, input, output, cached).Ok?
    ensures
      var exact := ExactCost(Rate(p.input).value, Rate(p.output).value, Rate(CachedPrice(p)).value, input, output,
          cached);
      var micros := CostMicros(p, input, output, cached).value;
      exact <= micros * MILLION < exact + MILLION
  {
    var exact := ExactCost(Rate(p.input).value, Rate(p.output).value, Rate(CachedPrice(p)).value, input, output,
        cached);
    DivBounds(exact + 999_999);
  }

  lemma DivBounds(n: nat)
    ensures n - 999_999 <= n / MILLION * MILLION <= n
  {
  }

  /** The dearer of the input and cached rates prices the whole prompt when money is reserved. */
  function ReservePrice(p: Price): Price {
    Price(if Cheaper(p.input, CachedPrice(p)) then CachedPrice(p) else p.input, p.output, p.cached)
  }

  function ReserveMicros(p: Price, overhead: int, output: int): Result<nat> {
    CostMicros(ReservePrice(p), overhead, output, 0)
  }

  lemma MulMonotone(a: nat, b: nat, x: nat, y: nat)
    requires a <= b && x <= y
    ensures a * x <= b * y
  {
    assert a * x <= b * x;
    assert b * x <= b * y;
  }

  lemma DivMonotone(a: nat, b: nat)
    requires a <= b
    ensures a / MILLION <= b / MILLION
  {
  }

  /** A call that keeps to its token limits never costs more than was reserved for it. */
  lemma ReservationCovers(p: Price, overhead: nat, output: nat, prompt: nat, completion: nat, cached: nat)
    requires Rate(p.input).Ok? && ReserveMicros(p, overhead, output).Ok?
    requires prompt <= overhead && completion <= output && cached <= prompt
    ensures CostMicros(p, prompt, completion, cached).Ok?
    ensures CostMicros(p, prompt, completion, cached).value <= ReserveMicros(p, overhead, output).value
  {
    var q := ReservePrice(p);
    assert Rate(CachedPrice(p)).Ok?;
    CheaperComparesRates(p.input, CachedPrice(p));
    var i, o, c, m := Rate(p.input).value, Rate(p.output).value, Rate(CachedPrice(p)).value, Rate(q.input).value;
    assert m >= i && m >= c;
    var actual := ExactCost(i, o, c, prompt, completion, cached);
    var held := ExactCost(m, o, Rate(CachedPrice(q)).value, overhead, output, 0);
    assert actual <= held by {
      MulMonotone(prompt - cached, prompt - cached, i, m);
      MulMonotone(cached, cached, c, m);
      assert (prompt - cached) * m + cached * m == prompt * m;
      MulMonotone(prompt, overhead, m, m);
      MulMonotone(completion, output, o, o);
      assert held == overhead * m + output * o;
    }
    DivMonotone(actual + 999_999, held + 999_999);
  }

  function Token(v: Option<int>): Option<nat> {
    if v.Some? && SafeCount(v.value) then Some(v.value) else None
  }

  /** The reported token count, or the sum of its parts. */
  function ActualTokens(u: Usage): Option<nat> {
    if Token(u.actual).Some? then Token(u.actual)
    else if Token(u.prompt).Some? && Token(u.completion).Some?
        then Some(Token(u.prompt).value + Token(u.completion).value)
    else None
  }

  /** `calculateUsage`, as far as the ledger asks: the token count of a bill that is known. */
  function KnownTokens(p: Price, u: Usage): Option<nat> {
    var prompt, completion, cached := Token(u.prompt), Token(u.completion), Token(u.cached);
    if prompt.None? || completion.None? then None
    else
      var priced := u.costGiven ||
        ((cached.Some? || (p.cached.Some? && p.cached.value == p.input))
          && (cached.None? || cached.value <= prompt.value)
          && (cached.None? || cached.value == 0 || p.cached.Some?));
      if priced then ActualTokens(u) else None
  }

  /** The bill of a response: none while it is unknown; an error when it claims more cached than prompt tokens. */
  function BillOf(p: Price, u: Usage): Result<Option<Bill>> {
    var tokens := KnownTokens(p, u);
    if tokens.None? then Ok(None)
    else
      var cached := Token(u.cached);
      var micros := CostMicros(p, Token(u.prompt).value, Token(u.completion).value, if cached.Some? then cached.value
          else 0);
      if micros.Err? then Err(micros.error) else Ok(Some(Bill(tokens.value, micros.value)))
  }
}
