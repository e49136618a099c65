/**
 * The money rows of the company: model permits, their reservations and the period budget
 * (company_model_ledger.ts, owner_company_budget.ts) with the parts of the gate that admit, restart,
 * halt and reconcile them (owner_automation_gate.ts, company_recovery_service.ts).
 *
 * A permit's identifier is its position in the table. A refused operation is a rolled-back transaction.
 */
module Ledger {
  import opened Wrappers
  import opened Money

  datatype PermitState = Sent | Unknown | Settled | NotSent

  datatype SourceKind = CompanyWorker | World | OwnerChat

  datatype CallId = ModelStep(attempt: nat, step: nat) | OtherCall(number: nat)

  datatype Source = Source(call: CallId, kind: SourceKind, world: Option<nat>)

  /** Request hashes are injective, so a request stands for its hash. */
  datatype Request = StepRequest(step: nat, history: seq<nat>) | OtherRequest(number: nat)

  datatype Response = Response(text: nat, usage: Usage)

  datatype Permit = Permit(
    state: PermitState,
    source: Option<Source>,
    request: Request,
    price: Price,
    overhead: nat,
    output: nat,
    reservedMicros: nat,
    settledMicros: Option<nat>,
    actualTokens: Option<nat>,
    response: Option<Response>)

  datatype Budget = Budget(
    totalMicros: nat,
    baseline: nat,
    activated: bool,
    refillRequired: bool,
    tokenMillions: Option<nat>,
    rate: nat,
    revision: nat)

  /** `safetyHold` names the permit whose settlement overran; only the owner clears it. */
  datatype State = State(
    permits: seq<Permit>,
    budget: Budget,
    on: bool,
    maintenance: bool,
    safetyHold: Option<nat>,
    schedulerHold: bool)

  const WORKER_MAX_OUTPUT_TOKENS := 8192

  const INITIAL := State([], Budget(0, 0, false, false, None, 0, 0), false, false, None, false)

  // ---- Sums over the permit table ----

  function Sum(f: Permit -> nat, ps: seq<Permit>): nat {
    if ps == [] then 0 else Sum(f, ps[..|ps| - 1]) + f(ps[|ps| - 1])
  }

  function SpentOf(p: Permit): nat {
    if p.state.Settled? && p.settledMicros.Some? then p.settledMicros.value else 0
  }

  function HeldOf(p: Permit): nat {
    if Pending(p) then p.reservedMicros else 0
  }

  /** By how much a settlement overran its reservation. */
  function ExcessOf(p: Permit): nat {
    if SpentOf(p) > p.reservedMicros then SpentOf(p) - p.reservedMicros else 0
  }

  predicate Pending(p: Permit) {
    p.state.Sent? || p.state.Unknown?
  }

  lemma {:induction false} SumUpdate(f: Permit -> nat, ps: seq<Permit>, i: nat, p: Permit)
    requires i < |ps|
    ensures Sum(f, ps[i := p]) == Sum(f, ps) - f(ps[i]) + f(p)
  {
    var n := |ps| - 1;
    if i == n {
      assert ps[i := p][..n] == ps[..n];
    } else {
      assert ps[i := p][..n] == ps[..n][i := p];
      SumUpdate(f, ps[..n], i, p);
    }
  }

  lemma SumAppend(f: Permit -> nat, ps: seq<Permit>, p: Permit)
    ensures Sum(f, ps + [p]) == Sum(f, ps) + f(p)
  {
    assert (ps + [p])[..|ps|] == ps;
  }

  function Spent(s: State): nat { Sum(SpentOf, s.permits) }

  function Held(s: State): nat { Sum(HeldOf, s.permits) }

  function Excess(s: State): nat { Sum(ExcessOf, s.permits) }

  // ---- The budget ----

  datatype View = View(total: int, spent: int, reserved: nat, available: nat, needsRefill: bool)

  function ViewOf(s: State): View {
    var total, spent, reserved := s.budget.totalMicros - s.budget.baseline, Spent(s) - s.budget.baseline, Held(s);
    View(total, spent, reserved,
         if total - spent - reserved > 0 then total - spent - reserved else 0,
         s.budget.refillRequired || (s.budget.activated && total - spent <= 0))
  }

  function Configure(s: State, millions: int, rate: int, expectedRevision: int): Result<State> {
    if !(1 <= millions <= 10000) || rate <= 0 || !SafeCount(rate) || !SafeCount(millions * rate)
        then Err("OWNER_MONEY_INVALID")
    else
      var amount: nat, v := millions * rate, ViewOf(s);
      if s.budget.revision != expectedRevision then Err("OWNER_REVISION_CONFLICT")
      else if amount < v.reserved then Err("OWNER_COMPANY_BUDGET_EXHAUSTED")
      else if v.needsRefill && s.budget.tokenMillions == Some(millions) then Err("OWNER_BUDGET_TOKEN_CHANGE_REQUIRED")
      else if !SafeCount(Spent(s) + amount) then Err("OWNER_MONEY_INVALID")
      else Ok(s.(budget := Budget(Spent(s) + amount, Spent(s), true, false, Some(millions), rate,
          s.budget.revision + 1)))
  }

  function MarkInsufficient(s: State): State {
    if s.budget.refillRequired then s
    else s.(budget := s.budget.(refillRequired := true, revision := s.budget.revision + 1))
  }

  /** Why `reserve` refuses an amount, if it does. */
  function ReserveRefusal(s: State, amount: nat): Option<string> {
    if !s.budget.activated then Some("OWNER_COMPANY_BUDGET_REQUIRED")
    else if ViewOf(s).needsRefill || ViewOf(s).available < amount then Some("OWNER_COMPANY_BUDGET_EXHAUSTED")
    else None
  }

  // ---- Admission ----

  predicate IsHeld(s: State) {
    s.safetyHold.Some? || s.schedulerHold
  }

  predicate IsOn(s: State) {
    s.on && !s.maintenance && !IsHeld(s) && s.budget.activated && ViewOf(s).available > 0 && !ViewOf(s).needsRefill
  }

  function HoldReason(s: State): Option<string> {
    if s.safetyHold.Some? then Some("OWNER_PROVIDER_USAGE_EXCEEDED_RESERVATION")
    else if s.schedulerHold then Some("OWNER_SCHEDULER_FAILED")
    else None
  }

  /** `assertOn`: why automation is not on. */
  function OnRefusal(s: State): (r: Option<string>)
    ensures r.None? <==> IsOn(s)
  {
    if IsOn(s) then None
    else if s.maintenance then Some("EVOLUTION_QUIESCED")
    else if !s.on then Some("OWNER_AUTOMATION_OFF")
    else if IsHeld(s) then HoldReason(s)
    else if !s.budget.activated then Some("OWNER_COMPANY_BUDGET_REQUIRED")
    else Some("OWNER_COMPANY_BUDGET_EXHAUSTED")
  }

  /** Money that only pending calls keep from being available makes the budget busy, not exhausted. */
  function Busy(s: State, code: string, micros: nat): string {
    var v := ViewOf(s);
    if code == "OWNER_COMPANY_BUDGET_EXHAUSTED" && !v.needsRefill && v.reserved > 0 && v.total - v.spent >= micros
    then "OWNER_COMPANY_BUDGET_BUSY" else code
  }

  // ---- Model permits ----

  /** `denied` is the verdict of the goal and scope checks, which read rows kept elsewhere. */
  datatype Call = Call(source: Option<Source>, request: Request, price: Option<Price>, messageBytes: nat,
      maxTokens: int,
                       goalBound: bool, denied: Option<string>)

  datatype Prepared = Granted(id: nat) | Replayed(id: nat, response: Response)

  datatype Outcome = Outcome(next: State, result: Result<Prepared>)

  function OutputLimit(call: Call): int {
    if call.goalBound && call.maxTokens > WORKER_MAX_OUTPUT_TOKENS then WORKER_MAX_OUTPUT_TOKENS else call.maxTokens
  }

  /** The newest permit of a source that is not proved unsent. */
  function LivePermit(ps: seq<Permit>, source: Source): (r: Option<nat>)
    ensures r.Some? ==> r.value < |ps| && ps[r.value].source == Some(source) && !ps[r.value].state.NotSent?
    ensures r.None? ==> forall i :: 0 <= i < |ps| ==> ps[i].source == Some(source) ==> ps[i].state.NotSent?
  {
    if ps == [] then None
    else
      var n := |ps| - 1;
      if ps[n].source == Some(source) && !ps[n].state.NotSent? then Some(n) else LivePermit(ps[..n], source)
  }

  function NewPermit(call: Call, micros: nat): Permit
    requires call.price.Some? && OutputLimit(call) > 0
  {
    Permit(Sent, call.source, call.request, call.price.value, call.messageBytes + 1024, OutputLimit(call), micros, None,
        None, None)
  }

  /** What the transaction answers: a new permit, the response of an earlier one, or why neither. */
  function Admitted(s: State, call: Call, micros: nat): Result<Prepared> {
    var live := if call.source.Some? then LivePermit(s.permits, call.source.value) else None;
    if OnRefusal(s).Some? then Err(OnRefusal(s).value)
    else if call.denied.Some? then Err(call.denied.value)
    else if live.Some? then Replay(s.permits[live.value], live.value, call.request)
    else if ReserveRefusal(s, micros).Some? then Err(ReserveRefusal(s, micros).value)
    else Ok(Granted(|s.permits|))
  }

  function Prepare(s: State, call: Call): Outcome {
    var output := OutputLimit(call);
    if call.price.None? then Outcome(s, Err("MODEL_PRICE_REQUIRED"))
    else if output <= 0 || !SafeCount(output) then Outcome(s, Err("OWNER_MODEL_OUTPUT_LIMIT_REQUIRED"))
    else
      var micros := ReserveMicros(call.price.value, call.messageBytes + 1024, output);
      if micros.Err? then Outcome(s, Err(micros.error))
      else
        var a := Admitted(s, call, micros.value);
        if a.Err? then Outcome(s, Err(Busy(s, a.error, micros.value)))
        else if a.value.Granted? then Outcome(s.(permits := s.permits + [NewPermit(call, micros.value)]), a)
        else Outcome(s, a)
  }

  /** What an earlier permit of the same source answers. */
  function Replay(p: Permit, id: nat, request: Request): Result<Prepared> {
    if p.request != request then Err("IDEMPOTENCY_CONFLICT")
    else if p.response.Some? then Ok(Replayed(id, p.response.value))
    else Err(match p.state
             case Sent => "OWNER_CALL_IN_FLIGHT"
             case Unknown => "OWNER_OUTCOME_REVIEW_REQUIRED"
             case _ => "OWNER_CALL_RECEIPT_REQUIRED")
  }

  function Respond(s: State, id: nat, response: Response): Result<State> {
    if id >= |s.permits| then Err("OWNER_CALL_RECEIPT_REQUIRED")
    else
      var p := s.permits[id];
      if p.response.Some? then if p.response.value == response then Ok(s) else Err("OWNER_BILLING_RECEIPT_CONFLICT")
      else if p.state.NotSent? then Err("OWNER_BILLING_RECEIPT_CONFLICT")
      else
        var bill := BillOf(p.price, response.usage);
        if bill.Err? then Err(bill.error)
        else if p.state.Settled? && (bill.value.None? || p.actualTokens != Some(bill.value.value.tokens)
            || p.settledMicros != Some(bill.value.value.micros))
        then Err("OWNER_BILLING_RECEIPT_CONFLICT")
        else if bill.value.None? then
          Ok(s.(permits := s.permits[id := p.(state := Unknown, actualTokens := ActualTokens(response.usage),
              response := Some(response))]))
        else
          var b := bill.value.value;
          Ok(s.(permits := s.permits[id := p.(state := Settled, settledMicros := Some(b.micros),
              actualTokens := Some(b.tokens), response := Some(response))],
                safetyHold := if b.tokens > p.overhead + p.output || b.micros > p.reservedMicros then Some(id)
                else s.safetyHold))
  }

  /** Which responses a permit's row still takes: the one it has, or a first one whose bill does not contradict an
      earlier settlement. */
  predicate Accepts(p: Permit, response: Response) {
    if p.response.Some? then p.response.value == response
    else !p.state.NotSent? && BillOf(p.price, response.usage).Ok?
         && (p.state.Settled? ==>
               BillOf(p.price, response.usage).value.Some?
               && p.actualTokens == Some(BillOf(p.price, response.usage).value.value.tokens)
               && p.settledMicros == Some(BillOf(p.price, response.usage).value.value.micros))
  }

  lemma RespondAccepts(s: State, id: nat, response: Response)
    ensures Respond(s, id, response).Ok? <==> id < |s.permits| && Accepts(s.permits[id], response)
  {
  }

  function Fail(s: State, id: nat, notSent: bool): State {
    if id < |s.permits| && Pending(s.permits[id]) && s.permits[id].response.None? then
      s.(permits := s.permits[id := s.permits[id].(state := if notSent then NotSent else Unknown,
                                                   actualTokens := if notSent then Some(0) else None)])
    else s
  }

  /** A new controller process cannot know that a call in flight was not delivered. */
  function Interrupt(p: Permit): Permit {
    if p.state.Sent? then p.(state := Unknown) else p
  }

  function Restart(s: State): State {
    s.(permits := seq(|s.permits|, i requires 0 <= i < |s.permits| => Interrupt(s.permits[i])), maintenance := false,
        schedulerHold := false)
  }

  /** The owner enters the bill of a call whose outcome is unknown. */
  function Reconcile(s: State, id: nat, tokens: nat, micros: nat): Result<State> {
    if id >= |s.permits| || !s.permits[id].state.Unknown? then Err("OWNER_OUTCOME_REVIEW_REQUIRED")
    else Ok(s.(permits := s.permits[id := s.permits[id].(state := Settled, settledMicros := Some(micros),
        actualTokens := Some(tokens))]))
  }

  /** A World recovery decision proves that its call was never billed. */
  function ConfirmNotBilled(s: State, id: nat): State {
    if id < |s.permits| && s.permits[id].state.Unknown? && s.permits[id].source.Some?
        && s.permits[id].source.value.kind.World? then
      s.(permits := s.permits[id := s.permits[id].(state := NotSent, actualTokens := Some(0))])
    else s
  }

  function Acknowledge(s: State, id: nat): Result<State> {
    if s.safetyHold != Some(id) then Err("OWNER_RECOVERY_CHANGED")
    else if id >= |s.permits| || !s.permits[id].state.Settled? then Err("OWNER_SAFETY_RECEIPT_REQUIRED")
    else Ok(s.(safetyHold := None))
  }

  // ---- Runs ----

  datatype Op =
    | PrepareOp(call: Call)
    | RespondOp(id: nat, response: Response)
    | FailOp(id: nat, notSent: bool)
    | ReconcileOp(id: nat, tokens: nat, micros: nat)
    | ConfirmNotBilledOp(id: nat)
    | ConfigureOp(millions: int, rate: int, expectedRevision: int)
    | MarkInsufficientOp
    | SetModeOp(on: bool)
    | MaintenanceOp(active: bool)
    | SchedulerFailedOp
    | RestartOp
    | AcknowledgeOp(id: nat)

  function OrElse(r: Result<State>, s: State): State {
    if r.Ok? then r.value else s
  }

  function Step(s: State, op: Op): State {
    match op
    case PrepareOp(call) => Prepare(s, call).next
    case RespondOp(id, response) => OrElse(Respond(s, id, response), s)
    case FailOp(id, notSent) => Fail(s, id, notSent)
    case ReconcileOp(id, tokens, micros) => OrElse(Reconcile(s, id, tokens, micros), s)
    case ConfirmNotBilledOp(id) => ConfirmNotBilled(s, id)
    case ConfigureOp(millions, rate, revision) => OrElse(Configure(s, millions, rate, revision), s)
    case MarkInsufficientOp => MarkInsufficient(s)
    case SetModeOp(on) => s.(on := on)
    case MaintenanceOp(active) => s.(maintenance := active)
    case SchedulerFailedOp => s.(schedulerHold := true)
    case RestartOp => Restart(s)
    case AcknowledgeOp(id) => OrElse(Acknowledge(s, id), s)
  }

  function Run(s: State, ops: seq<Op>): State {
    if ops == [] then s else Step(Run(s, ops[..|ops| - 1]), ops[|ops| - 1])
  }

  // ---- What every step keeps ----

  ghost predicate OneLive(ps: seq<Permit>) {
    forall i, j :: 0 <= i < j < |ps| && ps[i].source.Some? && ps[i].source == ps[j].source ==>
        ps[i].state.NotSent? || ps[j].state.NotSent?
  }

  ghost predicate PermitOk(p: Permit) {
    && (p.state.Settled? ==> p.settledMicros.Some?)
    && (p.response.Some? && p.state.NotSent? ==> p.source.Some? && p.source.value.kind.World?)
    && ReserveMicros(p.price, p.overhead, p.output) == Ok(p.reservedMicros)
  }

  ghost predicate Inv(s: State) {
    && OneLive(s.permits)
    && (forall i :: 0 <= i < |s.permits| ==> PermitOk(s.permits[i]))
    && (!s.budget.activated ==> s.permits == [])
    && s.budget.baseline <= s.budget.totalMicros
  }

  /** What can happen to one row: terminal states are final, and what was reserved is never rewritten. */
  ghost predicate RowEvolves(p: Permit, q: Permit) {
    && q.source == p.source && q.request == p.request && q.price == p.price
    && q.overhead == p.overhead && q.output == p.output && q.reservedMicros == p.reservedMicros
    && (p.state.NotSent? ==> q.state.NotSent?)
    && (p.state.Settled? ==> q.state.Settled? && q.settledMicros == p.settledMicros && q.actualTokens == p.actualTokens)
    && (p.response.Some? ==> q.response == p.response)
  }

  ghost predicate Evolves(s: State, t: State) {
    && |s.permits| <= |t.permits|
    && forall i :: 0 <= i < |s.permits| ==> RowEvolves(s.permits[i], t.permits[i])
  }

  lemma RowChangeKeepsInv(s: State, id: nat, q: Permit, hold: Option<nat>)
    requires Inv(s) && id < |s.permits|
    requires RowEvolves(s.permits[id], q) && PermitOk(q)
    ensures
      var t := s.(permits := s.permits[id := q], safetyHold := hold);
      Inv(t) && Evolves(s, t)
  {
  }

  lemma RespondedRow(s: State, id: nat, response: Response)
    requires Inv(s) && Respond(s, id, response).Ok?
    ensures
      var t := Respond(s, id, response).value;
      && id < |s.permits| && (s.permits[id].response.Some? ==> t == s)
      && t == s.(permits := s.permits[id := t.permits[id]], safetyHold := t.safetyHold)
      && RowEvolves(s.permits[id], t.permits[id]) && PermitOk(t.permits[id])
  {
    hide Evolves;
    assert PermitOk(s.permits[id]);
  }

  lemma RespondKeepsInv(s: State, id: nat, response: Response)
    requires Inv(s) && Respond(s, id, response).Ok?
    ensures Inv(Respond(s, id, response).value) && Evolves(s, Respond(s, id, response).value)
  {
    hide Inv, Evolves, Respond;
    UnchangedKeepsInv(s);
    RespondedRow(s, id, response);
    var t := Respond(s, id, response).value;
    if s.permits[id].response.None? {
      RowChangeKeepsInv(s, id, t.permits[id], t.safetyHold);
    }
  }

  lemma UnchangedKeepsInv(s: State)
    requires Inv(s)
    ensures Evolves(s, s)
  {
  }

  lemma PrepareKeepsInv(s: State, call: Call)
    requires Inv(s)
    ensures Inv(Prepare(s, call).next) && Evolves(s, Prepare(s, call).next)
  {
    hide Inv, Evolves, ReserveMicros, Admitted, Busy;
    UnchangedKeepsInv(s);
    var micros := if call.price.Some? then ReserveMicros(call.price.value, call.messageBytes + 1024, OutputLimit(call))
        else Err("");
    if call.price.Some? && OutputLimit(call) > 0 && micros.Ok? && Admitted(s, call, micros.value).Ok?
        && Admitted(s, call, micros.value).value.Granted? {
      GrantKeepsInv(s, call, micros.value);
    }
  }

  lemma GrantKeepsInv(s: State, call: Call, micros: nat)
    requires Inv(s) && call.price.Some? && OutputLimit(call) > 0
    requires ReserveMicros(call.price.value, call.messageBytes + 1024, OutputLimit(call)) == Ok(micros)
        && Admitted(s, call, micros).Ok? && Admitted(s, call, micros).value.Granted?
    ensures
      var t := s.(permits := s.permits + [NewPermit(call, micros)]);
      Inv(t) && Evolves(s, t)
  {
    hide ReserveMicros, ViewOf;
    assert PermitOk(NewPermit(call, micros));
  }

  lemma FailKeepsInv(s: State, id: nat, notSent: bool)
    requires Inv(s)
    ensures Inv(Fail(s, id, notSent)) && Evolves(s, Fail(s, id, notSent))
  {
    if Fail(s, id, notSent) != s {
      RowChangeKeepsInv(s, id, Fail(s, id, notSent).permits[id], s.safetyHold);
    }
  }

  lemma ReconcileKeepsInv(s: State, id: nat, tokens: nat, micros: nat)
    requires Inv(s) && Reconcile(s, id, tokens, micros).Ok?
    ensures Inv(Reconcile(s, id, tokens, micros).value) && Evolves(s, Reconcile(s, id, tokens, micros).value)
  {
    RowChangeKeepsInv(s, id, Reconcile(s, id, tokens, micros).value.permits[id], s.safetyHold);
  }

  lemma ConfirmKeepsInv(s: State, id: nat)
    requires Inv(s)
    ensures Inv(ConfirmNotBilled(s, id)) && Evolves(s, ConfirmNotBilled(s, id))
  {
    if ConfirmNotBilled(s, id) != s {
      RowChangeKeepsInv(s, id, ConfirmNotBilled(s, id).permits[id], s.safetyHold);
    }
  }

  lemma RestartKeepsInv(s: State)
    requires Inv(s)
    ensures Inv(Restart(s)) && Evolves(s, Restart(s))
  {
    forall i | 0 <= i < |s.permits|
      ensures RowEvolves(s.permits[i], Restart(s).permits[i]) && PermitOk(Restart(s).permits[i])
    {
      assert PermitOk(s.permits[i]);
    }
  }

  /** The rows of control and budget do not touch the permits. */
  lemma SamePermitsKeepInv(s: State, t: State)
    requires Inv(s) && t.permits == s.permits
    requires (s.budget.activated ==> t.budget.activated) && t.budget.baseline <= t.budget.totalMicros
    ensures Inv(t) && Evolves(s, t)
  {
  }

  /** Budget and control rows change; the permits do not. */
  lemma ControlKeepsInv(s: State, op: Op)
    requires Inv(s)
    requires op.ConfigureOp? || op.MarkInsufficientOp? || op.SetModeOp? || op.MaintenanceOp? || op.SchedulerFailedOp?
        || op.AcknowledgeOp?
    ensures Inv(Step(s, op)) && Evolves(s, Step(s, op))
  {
    hide Evolves, Prepare, Respond, Fail, Reconcile, ConfirmNotBilled, Restart, Sum;
    SamePermitsKeepInv(s, Step(s, op));
  }

  /** Every operation keeps the invariant and lets each row change only as `RowEvolves` allows. */
  lemma StepKeepsInv(s: State, op: Op)
    requires Inv(s)
    ensures Inv(Step(s, op)) && Evolves(s, Step(s, op))
  {
    hide Inv, Evolves, Prepare, Respond, Fail, Reconcile, ConfirmNotBilled, Restart, Configure, MarkInsufficient,
        Acknowledge;
    UnchangedKeepsInv(s);
    match op
    case PrepareOp(call) => PrepareKeepsInv(s, call);
    case RespondOp(id, response) => if Respond(s, id, response).Ok? { RespondKeepsInv(s, id, response); }
    case FailOp(id, notSent) => FailKeepsInv(s, id, notSent);
    case ReconcileOp(id, tokens, micros) =>
      if Reconcile(s, id, tokens, micros).Ok? {
        ReconcileKeepsInv(s, id, tokens, micros);
      }
    case ConfirmNotBilledOp(id) => ConfirmKeepsInv(s, id);
    case RestartOp => RestartKeepsInv(s);
    case _ => ControlKeepsInv(s, op);
  }

  lemma {:induction false} RunKeepsInv(s: State, ops: seq<Op>)
    requires Inv(s)
    ensures Inv(Run(s, ops))
  {
    if ops != [] {
      RunKeepsInv(s, ops[..|ops| - 1]);
      StepKeepsInv(Run(s, ops[..|ops| - 1]), ops[|ops| - 1]);
    }
  }

  /** Over any run no permit that was settled or proved unsent is ever reopened or rebilled. */
  lemma {:induction false} RunEvolves(s: State, ops: seq<Op>)
    requires Inv(s)
    ensures Evolves(s, Run(s, ops))
  {
    if ops != [] {
      var before := ops[..|ops| - 1];
      RunEvolves(s, before);
      RunKeepsInv(s, before);
      var t := Run(s, before);
      StepKeepsInv(t, ops[|ops| - 1]);
      forall i | 0 <= i < |s.permits| ensures RowEvolves(s.permits[i], Run(s, ops).permits[i]) {
        assert RowEvolves(s.permits[i], t.permits[i]);
      }
    }
  }

  /** One logical call is charged at most once, whatever happens. */
  lemma ChargedAtMostOnce(ops: seq<Op>, i: nat, j: nat)
    requires i < |Run(INITIAL, ops).permits| && j < |Run(INITIAL, ops).permits|
    requires Run(INITIAL, ops).permits[i].source.Some?
        && Run(INITIAL, ops).permits[i].source == Run(INITIAL, ops).permits[j].source
    requires !Run(INITIAL, ops).permits[i].state.NotSent? && !Run(INITIAL, ops).permits[j].state.NotSent?
    ensures i == j
  {
    RunKeepsInv(INITIAL, ops);
  }

  // ---- Money over whole runs ----

  function OwedOf(p: Permit): nat { SpentOf(p) + HeldOf(p) }

  /** What is spent or still reserved. */
  function Owed(s: State): nat { Sum(OwedOf, s.permits) }

  function Overspend(s: State): nat {
    if Owed(s) > s.budget.totalMicros then Owed(s) - s.budget.totalMicros else 0
  }

  lemma {:induction false} OwedIsSpentPlusHeld(ps: seq<Permit>)
    ensures Sum(OwedOf, ps) == Sum(SpentOf, ps) + Sum(HeldOf, ps)
  {
    if ps != [] {
      OwedIsSpentPlusHeld(ps[..|ps| - 1]);
    }
  }

  lemma {:induction false} EvolvingSums(ps: seq<Permit>, qs: seq<Permit>)
    requires |ps| == |qs|
    requires forall i :: 0 <= i < |ps| ==>
        RowEvolves(ps[i], qs[i]) && (qs[i].state.Settled? ==> qs[i].settledMicros.Some?)
    ensures Sum(SpentOf, ps) <= Sum(SpentOf, qs)
    ensures Sum(ExcessOf, ps) <= Sum(ExcessOf, qs)
    ensures Sum(OwedOf, qs) + Sum(ExcessOf, ps) <= Sum(OwedOf, ps) + Sum(ExcessOf, qs)
  {
    if ps != [] {
      var n := |ps| - 1;
      assert RowEvolves(ps[n], qs[n]);
      EvolvingSums(ps[..n], qs[..n]);
    }
  }

  lemma StepShape(s: State, op: Op)
    ensures !op.ConfigureOp? ==> Step(s, op).budget.totalMicros == s.budget.totalMicros
    ensures !op.PrepareOp? ==> |Step(s, op).permits| == |s.permits|
  {
  }

  lemma PrepareMoney(s: State, call: Call)
    requires |Prepare(s, call).next.permits| > |s.permits|
    ensures
      var t := Prepare(s, call).next;
      Spent(t) == Spent(s) && Excess(t) == Excess(s) && Overspend(t) <= Overspend(s)
  {
    hide ReserveMicros, Busy, OnRefusal;
    var p := NewPermit(call, ReserveMicros(call.price.value, call.messageBytes + 1024, OutputLimit(call)).value);
    SumAppend(SpentOf, s.permits, p);
    SumAppend(ExcessOf, s.permits, p);
    SumAppend(OwedOf, s.permits, p);
    OwedIsSpentPlusHeld(s.permits);
  }

  lemma EvolvingMoney(s: State, t: State)
    requires Inv(t) && Evolves(s, t) && |s.permits| == |t.permits|
    ensures Spent(s) <= Spent(t) && Excess(s) <= Excess(t)
    ensures t.budget.totalMicros == s.budget.totalMicros ==> Overspend(t) + Excess(s) <= Overspend(s) + Excess(t)
  {
    forall i | 0 <= i < |s.permits| ensures t.permits[i].state.Settled? ==> t.permits[i].settledMicros.Some? {
      assert PermitOk(t.permits[i]);
    }
    EvolvingSums(s.permits, t.permits);
  }

  /** Settled spend and settlement excess never decrease; apart from `configure`, overspend grows only by the excess. */
  lemma StepMoney(s: State, op: Op)
    requires Inv(s)
    ensures Spent(s) <= Spent(Step(s, op)) && Excess(s) <= Excess(Step(s, op))
    ensures !op.ConfigureOp? ==> Overspend(Step(s, op)) + Excess(s) <= Overspend(s) + Excess(Step(s, op))
  {
    StepKeepsInv(s, op);
    StepShape(s, op);
    if |Step(s, op).permits| == |s.permits| {
      EvolvingMoney(s, Step(s, op));
    } else {
      assert op.PrepareOp?;
      PrepareMoney(s, op.call);
    }
  }

  lemma {:induction false} SpentNeverDecreases(s: State, ops: seq<Op>)
    requires Inv(s)
    ensures Spent(s) <= Spent(Run(s, ops))
  {
    if ops != [] {
      SpentNeverDecreases(s, ops[..|ops| - 1]);
      RunKeepsInv(s, ops[..|ops| - 1]);
      StepMoney(Run(s, ops[..|ops| - 1]), ops[|ops| - 1]);
    }
  }

  /** A new period starts with nothing spent or overspent, and with every pending reservation carried over. */
  lemma ConfigureCarriesReservations(s: State, millions: int, rate: int, revision: int)
    requires Inv(s) && Configure(s, millions, rate, revision).Ok?
    ensures
      var t := Configure(s, millions, rate, revision).value;
      && Overspend(t) == 0 && Held(t) == Held(s) && t.permits == s.permits
      && ViewOf(t) == View(millions * rate, 0, Held(s), millions * rate - Held(s), false)
  {
    hide Sum, Inv;
    OwedIsSpentPlusHeld(s.permits);
  }

  /** Of valid input, only an amount below the pending money is refused. */
  lemma ConfigureRefusedForPendingMoney(s: State, millions: int, rate: int)
    requires 1 <= millions <= 10000 && rate > 0 && SafeCount(rate) && SafeCount(millions * rate)
    requires SafeCount(Spent(s) + millions * rate)
    requires ViewOf(s).needsRefill ==> s.budget.tokenMillions != Some(millions)
    ensures Configure(s, millions, rate, s.budget.revision).Err? <==> millions * rate < Held(s)
  {
  }

  predicate OpensPeriod(s: State, op: Op) {
    op.ConfigureOp? && Configure(s, op.millions, op.rate, op.expectedRevision).Ok?
  }

  /** The settlement excess that had accumulated when the last accepted `configure` of a run took effect. */
  function ExcessMark(s: State, ops: seq<Op>): nat {
    if ops == [] then Excess(s)
    else if OpensPeriod(Run(s, ops[..|ops| - 1]), ops[|ops| - 1]) then Excess(Run(s, ops))
    else ExcessMark(s, ops[..|ops| - 1])
  }

  /** In every run, with any number of periods, crashes and late bills, the overspend of the current period is at
      most what settlements since its start exceeded their reservations by. */
  lemma {:induction false} OverspendIsExcessSinceConfigure(ops: seq<Op>)
    ensures Overspend(Run(INITIAL, ops)) + ExcessMark(INITIAL, ops) <= Excess(Run(INITIAL, ops))
  {
    if ops != [] {
      var before, op := ops[..|ops| - 1], ops[|ops| - 1];
      var s := Run(INITIAL, before);
      OverspendIsExcessSinceConfigure(before);
      RunKeepsInv(INITIAL, before);
      StepMoney(s, op);
      if OpensPeriod(s, op) {
        ConfigureCarriesReservations(s, op.millions, op.rate, op.expectedRevision);
      }
    }
  }

  lemma {:induction false} NoExcess(ps: seq<Permit>)
    requires forall i :: 0 <= i < |ps| ==> SpentOf(ps[i]) <= ps[i].reservedMicros
    ensures Sum(ExcessOf, ps) == 0
  {
    if ps != [] {
      NoExcess(ps[..|ps| - 1]);
    }
  }

  /** While no bill exceeds its reservation the company never owes more than it was given. */
  lemma NothingOverspentWithoutExcess(ops: seq<Op>)
    requires forall i :: 0 <= i < |Run(INITIAL, ops).permits| ==>
      SpentOf(Run(INITIAL, ops).permits[i]) <= Run(INITIAL, ops).permits[i].reservedMicros
    ensures Spent(Run(INITIAL, ops)) + Held(Run(INITIAL, ops)) <= Run(INITIAL, ops).budget.totalMicros
  {
    OverspendIsExcessSinceConfigure(ops);
    NoExcess(Run(INITIAL, ops).permits);
    OwedIsSpentPlusHeld(Run(INITIAL, ops).permits);
  }

  /** A response that keeps to the token limits of its permit settles within the reservation and raises no hold. */
  lemma CompliantResponseStaysWithinReservation(s: State, id: nat, response: Response)
    requires Inv(s) && id < |s.permits| && Respond(s, id, response).Ok? && Rate(s.permits[id].price.input).Ok?
    requires s.permits[id].response.None? && KnownTokens(s.permits[id].price, response.usage).Some?
    requires Token(response.usage.prompt).value <= s.permits[id].overhead
        && Token(response.usage.completion).value <= s.permits[id].output
    requires KnownTokens(s.permits[id].price, response.usage).value <= s.permits[id].overhead + s.permits[id].output
    ensures
      var q := Respond(s, id, response).value;
      q.permits[id].state.Settled? && SpentOf(q.permits[id]) <= q.permits[id].reservedMicros
          && q.safetyHold == s.safetyHold
  {
    var p, u := s.permits[id], response.usage;
    assert PermitOk(p);
    var cached := if Token(u.cached).Some? then Token(u.cached).value else 0;
    ReservationCovers(p.price, p.overhead, p.output, Token(u.prompt).value, Token(u.completion).value, cached);
  }

  /** A first response raises the hold exactly when its known bill exceeds the permit, in the transaction that settles
      it. */
  lemma OverrunRaisesHold(s: State, id: nat, response: Response)
    requires Inv(s) && s.safetyHold != Some(id)
    requires id < |s.permits| && Respond(s, id, response).Ok? && s.permits[id].response.None?
    ensures
      var q, t := Respond(s, id, response).value.permits[id], Respond(s, id, response).value;
      t.safetyHold == Some(id) <==>
      q.state.Settled? && (SpentOf(q) > q.reservedMicros
          || (q.actualTokens.Some? && q.actualTokens.value > q.overhead + q.output))
  {
  }

  /** Under the hold no permit is created, over any run and any restart, until the owner acknowledges the settled
      overrun. */
  lemma {:induction false} HoldStopsSpending(s: State, ops: seq<Op>)
    requires s.safetyHold.Some?
    requires forall i :: 0 <= i < |ops| ==> !ops[i].AcknowledgeOp?
    ensures Run(s, ops).safetyHold.Some? && |Run(s, ops).permits| == |s.permits|
  {
    hide Step;
    if ops != [] {
      HoldStopsSpending(s, ops[..|ops| - 1]);
      HoldStopsStep(Run(s, ops[..|ops| - 1]), ops[|ops| - 1]);
    }
  }

  lemma HoldStopsStep(s: State, op: Op)
    requires s.safetyHold.Some? && !op.AcknowledgeOp?
    ensures Step(s, op).safetyHold.Some? && |Step(s, op).permits| == |s.permits|
  {
    if op.PrepareOp? {
      assert OnRefusal(s).Some?;
    }
  }

  /** Only a permit that is settled can be acknowledged, and only the one that raised the hold. */
  lemma AcknowledgeNeedsReceipt(s: State, id: nat)
    ensures Acknowledge(s, id).Ok? <==> s.safetyHold == Some(id) && id < |s.permits| && s.permits[id].state.Settled?
  {
  }

  /** Its bill exceeds what was set aside for it, in money or in tokens. */
  predicate Overran(p: Permit) {
    p.state.Settled?
    && (SpentOf(p) > p.reservedMicros || (p.actualTokens.Some? && p.actualTokens.value > p.overhead + p.output))
  }

  /** A hold names a permit whose settled bill overran. */
  ghost predicate HoldOk(s: State) {
    s.safetyHold.Some? ==> s.safetyHold.value < |s.permits| && Overran(s.permits[s.safetyHold.value])
  }

  lemma HoldStays(s: State, t: State)
    requires HoldOk(s) && Evolves(s, t) && t.safetyHold == s.safetyHold
    ensures HoldOk(t)
  {
    if s.safetyHold.Some? { assert RowEvolves(s.permits[s.safetyHold.value], t.permits[s.safetyHold.value]); }
  }

  lemma RespondHolds(s: State, id: nat, response: Response)
    requires HoldOk(s) && Respond(s, id, response).Ok?
    ensures
      var t := Respond(s, id, response).value;
      t.safetyHold == s.safetyHold || (t.safetyHold == Some(id) && HoldOk(t))
  {
    hide Money.BillOf;
  }

  lemma OtherStepsKeepHold(s: State, op: Op)
    requires !op.RespondOp? && !op.AcknowledgeOp?
    ensures Step(s, op).safetyHold == s.safetyHold
  {
  }

  /** A hold that is raised is lifted by the acknowledgement of the permit it names, and by nothing else. */
  lemma HoldStep(s: State, op: Op)
    requires Inv(s) && HoldOk(s)
    ensures HoldOk(Step(s, op))
    ensures s.safetyHold.Some? ==> (Step(s, op).safetyHold.None? <==> op == AcknowledgeOp(s.safetyHold.value))
  {
    hide Inv, Evolves, HoldOk, Respond;
    StepKeepsInv(s, op);
    if op.RespondOp? {
      if Respond(s, op.id, op.response).Ok? { RespondHolds(s, op.id, op.response); }
      if Step(s, op).safetyHold == s.safetyHold { HoldStays(s, Step(s, op)); }
    } else if op.AcknowledgeOp? {
      AcknowledgeHolds(s, op.id);
    } else {
      OtherStepsKeepHold(s, op);
      HoldStays(s, Step(s, op));
    }
  }

  lemma AcknowledgeHolds(s: State, id: nat)
    requires HoldOk(s)
    ensures Acknowledge(s, id).Ok? <==> s.safetyHold == Some(id)
    ensures HoldOk(OrElse(Acknowledge(s, id), s))
  {
  }

  /** In every run a hold names a settled bill that overran, so the owner can always acknowledge it. */
  lemma {:induction false} HoldNamesAnOverrun(ops: seq<Op>)
    ensures
      var s := Run(INITIAL, ops);
      HoldOk(s) && (s.safetyHold.Some? ==> Acknowledge(s, s.safetyHold.value).Ok?)
  {
    hide Step, Overran;
    if ops != [] {
      HoldNamesAnOverrun(ops[..|ops| - 1]);
      RunKeepsInv(INITIAL, ops[..|ops| - 1]);
      HoldStep(Run(INITIAL, ops[..|ops| - 1]), ops[|ops| - 1]);
    }
    if Run(INITIAL, ops).safetyHold.Some? {
      AcknowledgeHolds(Run(INITIAL, ops), Run(INITIAL, ops).safetyHold.value);
    }
  }

  /** In every run a hold that is gone has been acknowledged: at that moment it named a settled bill that overran, and
      the owner named the same. */
  lemma {:induction false} HoldEndsOnlyByAcknowledgement(ops: seq<Op>, more: seq<Op>)
    requires Run(INITIAL, ops).safetyHold.Some? && Run(INITIAL, ops + more).safetyHold.None?
    ensures exists i ::
      && 0 <= i < |more| && more[i].AcknowledgeOp?
      && var u, id := Run(INITIAL, ops + more[..i]), more[i].id;
         u.safetyHold == Some(id) && id < |u.permits| && Overran(u.permits[id])
  {
    hide Step, Overran;
    assert more == [] ==> ops + more == ops;
    if more != [] {
      var n := |more| - 1;
      assert (ops + more)[..|ops + more| - 1] == ops + more[..n];
      var u := Run(INITIAL, ops + more[..n]);
      if u.safetyHold.Some? {
        RunKeepsInv(INITIAL, ops + more[..n]);
        HoldNamesAnOverrun(ops + more[..n]);
        HoldStep(u, more[n]);
      } else {
        HoldEndsOnlyByAcknowledgement(ops, more[..n]);
        var i :| 0 <= i < n && more[i].AcknowledgeOp?
          && var u, id := Run(INITIAL, ops + more[..n][..i]), more[i].id;
             u.safetyHold == Some(id) && id < |u.permits| && Overran(u.permits[id]);
        assert more[..n][..i] == more[..i];
      }
    }
  }
}
