/** The ledger and the budget as they run: rows are inserted and updated inside transactions that are put back when they
    throw. */
module LedgerService {
  import opened Wrappers
  import opened Money
  import opened L = Ledger

  lemma UnreservedPermitIsInvisible(rows: State, p: Permit)
    requires p.state.Sent? && p.reservedMicros == 0
    ensures ViewOf(rows.(permits := rows.permits + [p])) == ViewOf(rows)
  {
    hide Sum;
    var after := rows.(permits := rows.permits + [p]);
    SumAppend(SpentOf, rows.permits, p);
    SumAppend(HeldOf, rows.permits, p);
    assert SpentOf(p) == 0 && HeldOf(p) == 0;
    assert Spent(after) == Spent(rows) && Held(after) == Held(rows);
  }

  class CompanyModelLedger {
    var permits: seq<Permit>
    var budget: Budget
    var on: bool
    var maintenance: bool
    var safetyHold: Option<nat>
    var schedulerHold: bool

    ghost function Rows(): State
      reads this
    {
      State(permits, budget, on, maintenance, safetyHold, schedulerHold)
    }

    ghost predicate Valid()
      reads this
    {
      Inv(Rows())
    }

    constructor ()
      ensures Valid() && Rows() == INITIAL
    {
      permits, budget := [], Budget(0, 0, false, false, None, 0, 0);
      on, maintenance, safetyHold, schedulerHold := false, false, None, false;
    }

    /** A new controller process over the rows an earlier one left. */
    constructor Restart(rows: State)
      requires Inv(rows)
      ensures Valid() && Rows() == L.Restart(rows)
    {
      permits, budget, on, maintenance := rows.permits, rows.budget, rows.on, false;
      safetyHold, schedulerHold := rows.safetyHold, false;
      new;
      RestartKeepsInv(rows);
      for i := 0 to |permits|
        invariant |permits| == |rows.permits| && State(rows.permits, budget, on, false, safetyHold, false)
            == rows.(maintenance := false, schedulerHold := false)
        invariant maintenance == false && schedulerHold == false
        invariant forall j :: 0 <= j < i ==> permits[j] == Interrupt(rows.permits[j])
        invariant forall j :: i <= j < |permits| ==> permits[j] == rows.permits[j]
      {
        if permits[i].state.Sent? {
          permits := permits[i := permits[i].(state := Unknown)];
        }
      }
      assert permits == L.Restart(rows).permits;
    }

    /** Adds up the rows the way the budget's queries do. */
    method View() returns (v: View)
      ensures v == ViewOf(Rows())
    {
      var spent, reserved := 0, 0;
      for i := 0 to |permits|
        invariant spent == Sum(SpentOf, permits[..i]) && reserved == Sum(HeldOf, permits[..i])
      {
        assert permits[..i + 1][..i] == permits[..i];
        if permits[i].state.Settled? && permits[i].settledMicros.Some? {
          spent := spent + permits[i].settledMicros.value;
        }
        if Pending(permits[i]) {
          reserved := reserved + permits[i].reservedMicros;
        }
      }
      assert permits[..|permits|] == permits;
      var total, current := budget.totalMicros - budget.baseline, spent - budget.baseline;
      var available := total - current - reserved;
      if available < 0 {
        available := 0;
      }
      v := L.View.View(total, current, reserved, available, budget.refillRequired
          || (budget.activated && total - current <= 0));
    }

    method Configure(millions: int, rate: int, expectedRevision: int) returns (error: Option<string>)
      requires Valid()
      modifies this
      ensures Valid()
      ensures match L.Configure(old(Rows()), millions, rate, expectedRevision)
              case Ok(t) => error.None? && Rows() == t
              case Err(e) => error == Some(e) && Rows() == old(Rows())
    {
      if !(1 <= millions <= 10000) || rate <= 0 || !SafeCount(rate) || !SafeCount(millions * rate) {
        return Some("OWNER_MONEY_INVALID");
      }
      var amount: nat := millions * rate;
      var v := View();
      if budget.revision != expectedRevision {
        return Some("OWNER_REVISION_CONFLICT");
      }
      if amount < v.reserved {
        return Some("OWNER_COMPANY_BUDGET_EXHAUSTED");
      }
      if v.needsRefill && budget.tokenMillions == Some(millions) {
        return Some("OWNER_BUDGET_TOKEN_CHANGE_REQUIRED");
      }
      var spent: nat := v.spent + budget.baseline;
      if !SafeCount(spent + amount) {
        return Some("OWNER_MONEY_INVALID");
      }
      SamePermitsKeepInv(Rows(), Rows().(budget := Budget(spent + amount, spent, true, false, Some(millions), rate,
          budget.revision + 1)));
      budget := Budget(spent + amount, spent, true, false, Some(millions), rate, budget.revision + 1);
      return None;
    }

    /** Sets the money of a permit aside, or says why it cannot be. */
    method Reserve(id: nat, amount: nat) returns (error: Option<string>)
      requires id < |permits| && permits[id].reservedMicros == 0
      modifies this`permits
      ensures error == ReserveRefusal(old(Rows()), amount)
      ensures permits == if error.None? then old(permits)[id := old(permits)[id].(reservedMicros := amount)]
          else old(permits)
    {
      var v := View();
      if !budget.activated {
        return Some("OWNER_COMPANY_BUDGET_REQUIRED");
      }
      if v.needsRefill || v.available < amount {
        return Some("OWNER_COMPANY_BUDGET_EXHAUSTED");
      }
      permits := permits[id := permits[id].(reservedMicros := amount)];
      return None;
    }

    /** `ORDER BY created_at DESC LIMIT 1` over the permits of a source that may have been sent. */
    method FindLive(source: Source) returns (r: Option<nat>)
      ensures r == LivePermit(permits, source)
    {
      r := None;
      for i := 0 to |permits|
        invariant r == LivePermit(permits[..i], source)
      {
        assert permits[..i + 1][..i] == permits[..i];
        if permits[i].source == Some(source) && !permits[i].state.NotSent? {
          r := Some(i);
        }
      }
      assert permits[..|permits|] == permits;
    }

    method Explain(code: string, micros: nat) returns (reason: string)
      ensures reason == Busy(Rows(), code, micros)
    {
      reason := code;
      if code == "OWNER_COMPANY_BUDGET_EXHAUSTED" {
        var v := View();
        if !v.needsRefill && v.reserved > 0 && v.total - v.spent >= micros {
          reason := "OWNER_COMPANY_BUDGET_BUSY";
        }
      }
    }

    /** Why automation is not on, if it is not. */
    method Refusal() returns (r: Option<string>)
      ensures r == OnRefusal(Rows())
    {
      var v := View();
      if maintenance {
        return Some("EVOLUTION_QUIESCED");
      }
      if !on {
        return Some("OWNER_AUTOMATION_OFF");
      }
      if safetyHold.Some? {
        return Some("OWNER_PROVIDER_USAGE_EXCEEDED_RESERVATION");
      }
      if schedulerHold {
        return Some("OWNER_SCHEDULER_FAILED");
      }
      if !budget.activated {
        return Some("OWNER_COMPANY_BUDGET_REQUIRED");
      }
      if v.needsRefill || v.available <= 0 {
        return Some("OWNER_COMPANY_BUDGET_EXHAUSTED");
      }
      r := None;
    }

    /** Admits a call: its permit is inserted first and taken back when its money cannot be reserved. */
    method Prepare(call: Call) returns (r: Result<Prepared>)
      requires Valid()
      modifies this
      ensures Valid()
      ensures r == L.Prepare(old(Rows()), call).result && Rows() == L.Prepare(old(Rows()), call).next
    {
      PrepareKeepsInv(Rows(), call);
      if call.price.None? {
        return Err("MODEL_PRICE_REQUIRED");
      }
      var output := OutputLimit(call);
      if output <= 0 || !SafeCount(output) {
        return Err("OWNER_MODEL_OUTPUT_LIMIT_REQUIRED");
      }
      var overhead := call.messageBytes + 1024;
      var micros := ReserveMicros(call.price.value, overhead, output);
      if micros.Err? {
        return Err(micros.error);
      }
      r := Admit(call, output, overhead, micros.value);
      if r.Err? {
        var code := Explain(r.error, micros.value);
        r := Err(code);
      }
    }

    /** The body of the transaction. */
    method Admit(call: Call, output: nat, overhead: nat, micros: nat) returns (r: Result<Prepared>)
      requires call.price.Some? && output == OutputLimit(call) > 0 && overhead == call.messageBytes + 1024
      modifies this`permits
      ensures r == Admitted(old(Rows()), call, micros)
      ensures permits == if r.Ok? && r.value.Granted? then old(permits) + [NewPermit(call, micros)] else old(permits)
    {
      var refusal := Refusal();
      if refusal.Some? {
        return Err(refusal.value);
      }
      if call.denied.Some? {
        return Err(call.denied.value);
      }
      if call.source.Some? {
        var live := FindLive(call.source.value);
        if live.Some? {
          return Replay(permits[live.value], live.value, call.request);
        }
      }
      var saved, id := permits, |permits|;
      var p := Permit(Sent, call.source, call.request, call.price.value, overhead, output, 0, None, None, None);
      UnreservedPermitIsInvisible(Rows(), p);
      permits := permits + [p];
      var error := Reserve(id, micros);
      if error.Some? {
        permits := saved;
        return Err(error.value);
      }
      assert permits == saved + [NewPermit(call, micros)];
      return Ok(Granted(id));
    }

    method Respond(id: nat, response: Response) returns (error: Option<string>)
      requires Valid()
      modifies this
      ensures Valid()
      ensures match L.Respond(old(Rows()), id, response)
              case Ok(t) => error.None? && Rows() == t
              case Err(e) => error == Some(e) && Rows() == old(Rows())
    {
      hide Inv, BillOf;
      if id >= |permits| {
        return Some("OWNER_CALL_RECEIPT_REQUIRED");
      }
      var p := permits[id];
      if p.response.Some? {
        return if p.response.value == response then None else Some("OWNER_BILLING_RECEIPT_CONFLICT");
      }
      if p.state.NotSent? {
        return Some("OWNER_BILLING_RECEIPT_CONFLICT");
      }
      var bill := BillOf(p.price, response.usage);
      if bill.Err? {
        return Some(bill.error);
      }
      var known := bill.value.Some?;
      if p.state.Settled? && (!known || p.actualTokens != Some(bill.value.value.tokens)
          || p.settledMicros != Some(bill.value.value.micros)) {
        return Some("OWNER_BILLING_RECEIPT_CONFLICT");
      }
      RespondKeepsInv(Rows(), id, response);
      ghost var t := L.Respond(Rows(), id, response).value;
      if known {
        permits := permits[id := permits[id].(settledMicros := Some(bill.value.value.micros))];
      }
      permits := permits[id := permits[id].(state := if known then Settled else Unknown,
                                            actualTokens := if known then Some(bill.value.value.tokens)
                                            else ActualTokens(response.usage))];
      permits := permits[id := permits[id].(response := Some(response))];
      if known && (bill.value.value.tokens > p.overhead + p.output || bill.value.value.micros > p.reservedMicros) {
        safetyHold := Some(id);
      }
      assert permits == t.permits && Rows() == t;
      return None;
    }

    method Failure(id: nat, notSent: bool)
      requires Valid()
      modifies this
      ensures Valid() && Rows() == Fail(old(Rows()), id, notSent)
    {
      FailKeepsInv(Rows(), id, notSent);
      if id < |permits| && (permits[id].state.Sent? || permits[id].state.Unknown?) && permits[id].response.None? {
        permits := permits[id := permits[id].(state := if notSent then NotSent else Unknown, actualTokens := if notSent
            then Some(0) else None)];
      }
    }

    method ReconcileCall(id: nat, tokens: nat, micros: nat) returns (error: Option<string>)
      requires Valid()
      modifies this
      ensures Valid()
      ensures match Reconcile(old(Rows()), id, tokens, micros)
              case Ok(t) => error.None? && Rows() == t
              case Err(e) => error == Some(e) && Rows() == old(Rows())
    {
      if id >= |permits| || !permits[id].state.Unknown? {
        return Some("OWNER_OUTCOME_REVIEW_REQUIRED");
      }
      ReconcileKeepsInv(Rows(), id, tokens, micros);
      permits := permits[id := permits[id].(settledMicros := Some(micros))];
      permits := permits[id := permits[id].(state := Settled, actualTokens := Some(tokens))];
      return None;
    }

    /** A World recovery decision proves that its call was never billed. */
    method ConfirmNotBilled(id: nat)
      requires Valid()
      modifies this
      ensures Valid() && Rows() == L.ConfirmNotBilled(old(Rows()), id)
    {
      ConfirmKeepsInv(Rows(), id);
      if id < |permits| && permits[id].state.Unknown? && permits[id].source.Some?
          && permits[id].source.value.kind.World? {
        permits := permits[id := permits[id].(state := NotSent, actualTokens := Some(0))];
      }
    }

    method MarkInsufficient()
      requires Valid()
      modifies this
      ensures Valid() && Rows() == L.MarkInsufficient(old(Rows()))
    {
      if budget.refillRequired {
        return;
      }
      SamePermitsKeepInv(Rows(), L.MarkInsufficient(Rows()));
      budget := budget.(refillRequired := true, revision := budget.revision + 1);
    }

    method Acknowledge(id: nat) returns (error: Option<string>)
      requires Valid()
      modifies this
      ensures Valid()
      ensures match L.Acknowledge(old(Rows()), id)
              case Ok(t) => error.None? && Rows() == t
              case Err(e) => error == Some(e) && Rows() == old(Rows())
    {
      if safetyHold != Some(id) {
        return Some("OWNER_RECOVERY_CHANGED");
      }
      if id >= |permits| || !permits[id].state.Settled? {
        return Some("OWNER_SAFETY_RECEIPT_REQUIRED");
      }
      SamePermitsKeepInv(Rows(), Rows().(safetyHold := None));
      safetyHold := None;
      return None;
    }
  }
}
