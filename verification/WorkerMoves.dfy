/** Every move of the worker and of the controller keeps the invariant. */
module WorkerMoves {
  import opened Wrappers
  import opened Journal
  import opened WorkerProtocol
  import opened WorkerRuns
  import opened WorkerSafety

  // ---- Journal rows of one model step change ----

  ghost predicate Extends(events: seq<Event>, more: seq<Event>) {
    more == events || (|more| == |events| + 1 && more[..|events|] == events)
  }

  /** One model row is replaced, with at most one new event. */
  ghost predicate RowChange(s: System, t: System, k: nat) {
    && t == s.(j := s.j.(models := t.j.models, events := t.j.events), w := t.w, rpc := t.rpc) && k in t.j.models
    && Extends(s.j.events, t.j.events)
    && (forall i :: i in s.j.models || i == k <==> i in t.j.models)
    && (forall i :: i in s.j.models && i != k ==> t.j.models[i] == s.j.models[i])
    && (k in s.j.models ==>
          t.j.models[k].request == s.j.models[k].request && t.j.models[k].attempts >= s.j.models[k].attempts)
  }

  lemma RowFrameRows(s: System, t: System, k: nat)
    requires JournalInv(s) && RowChange(s, t, k) && RowOk(t.spec, t.j, t.c.grants, k)
    ensures JournalInv(t)
  {
    forall i | i in t.j.models && i != k ensures RowOk(t.spec, t.j, t.c.grants, i) {
      assert RowOk(s.spec, s.j, s.c.grants, i);
    }
  }

  lemma RowFrameGrants(s: System, t: System, k: nat)
    requires GrantInv(s) && RowChange(s, t, k)
    ensures GrantInv(t)
  {
    forall p | p in t.c.grants ensures GrantOk(t.spec, t.j, t.c.grants, t.c.ledger.permits, p) {
      assert GrantOk(s.spec, s.j, s.c.grants, s.c.ledger.permits, p);
    }
  }

  lemma RowFrameCalls(s: System, t: System, k: nat)
    requires CallInv(s) && RowChange(s, t, k)
    requires forall i :: 0 <= i < |s.calls| && s.calls[i].step == k ==>
        CallOk(t.j, t.c.grants, t.c.ledger.permits, s.calls[i])
    ensures CallInv(t)
  {
    forall i | 0 <= i < |s.calls| ensures CallOk(t.j, t.c.grants, t.c.ledger.permits, s.calls[i]) {
      assert CallOk(s.j, s.c.grants, s.c.ledger.permits, s.calls[i]);
    }
  }

  lemma RowFrameEvents(s: System, t: System, k: nat)
    requires EventInv(s) && RowChange(s, t, k)
    requires t.j.events != s.j.events ==> EventOk(t, t.j.events[|s.j.events|])
    requires forall i ::
        (0 <= i < |s.j.events| && (s.j.events[i].AnswerEvent? || s.j.events[i].FailureEvent?)
         && s.j.events[i].step == k) ==> EventOk(t, s.j.events[i])
    ensures EventInv(t)
  {
    forall i | 0 <= i < |t.j.events| ensures EventOk(t, t.j.events[i]) {
      if i < |s.j.events| {
        assert t.j.events[i] == s.j.events[i] && EventOk(s, s.j.events[i]);
      }
    }
  }

  /** What is left to check of a replaced row concerns that row and the new event. */
  lemma RowFrame(s: System, t: System, k: nat)
    requires MoneyInv(s) && RowChange(s, t, k)
    requires t.j.events != s.j.events ==> EventOk(t, t.j.events[|s.j.events|])
    requires RowOk(t.spec, t.j, t.c.grants, k) && PhaseInv(t)
    requires forall i :: 0 <= i < |s.calls| && s.calls[i].step == k ==>
        CallOk(t.j, t.c.grants, t.c.ledger.permits, s.calls[i])
    requires forall i ::
        (0 <= i < |s.j.events| && (s.j.events[i].AnswerEvent? || s.j.events[i].FailureEvent?)
         && s.j.events[i].step == k) ==> EventOk(t, s.j.events[i])
    requires t.j.models[k].state.Responded? ==> t.j.models[k].permit.Some? && Usable(t, t.j.models[k].permit.value)
    ensures MoneyInv(t)
  {
    hide JournalInv, GrantInv, CallInv, EventInv, PhaseInv, RowOk, EventOk, CallOk;
    RowFrameRows(s, t, k);
    RowFrameGrants(s, t, k);
    RowFrameCalls(s, t, k);
    RowFrameEvents(s, t, k);
  }

  lemma OpenStepKeeps(s: System)
    requires MoneyInv(s)
    ensures MoneyInv(OnStep(s))
  {
    hide GrantInv, AnswerInv;
    var t, k := OnStep(s), s.j.nextStep;
    if t != s {
      forall i | 0 <= i < |s.calls| ensures s.calls[i].step in s.j.models {
        assert CallOk(s.j, s.c.grants, s.c.ledger.permits, s.calls[i]);
      }
      forall i | 0 <= i < |s.j.events| ensures s.j.events[i].AnswerEvent? || s.j.events[i].FailureEvent? ==>
          s.j.events[i].step in s.j.models {
        assert EventOk(s, s.j.events[i]);
      }
      RowFrame(s, t, k);
    }
  }

  lemma RetryKeeps(s: System)
    requires MoneyInv(s)
    ensures MoneyInv(OnRetry(s))
  {
    hide GrantInv, AnswerInv;
    var t, k := OnRetry(s), s.j.nextStep;
    if t != s {
      assert RowOk(s.spec, s.j, s.c.grants, k);
      forall i | 0 <= i < |s.calls| && s.calls[i].step == k
          ensures CallOk(t.j, t.c.grants, t.c.ledger.permits, s.calls[i]) {
        assert CallOk(s.j, s.c.grants, s.c.ledger.permits, s.calls[i]);
      }
      forall i | 0 <= i < |s.j.events| && (s.j.events[i].AnswerEvent? || s.j.events[i].FailureEvent?)
          && s.j.events[i].step == k ensures EventOk(t, s.j.events[i]) {
        assert EventOk(s, s.j.events[i]);
      }
      RowFrame(s, t, k);
    }
  }

  lemma AskKeeps(s: System)
    requires MoneyInv(s)
    ensures MoneyInv(OnAsk(s))
  {
    var t, k := OnAsk(s), s.j.nextStep;
    if t != s {
      assert RowOk(s.spec, s.j, s.c.grants, k);
      PhaseFrame(s, t);
    }
  }

  /** Only the worker's phase and the pending message change. */
  lemma PhaseFrame(s: System, t: System)
    requires MoneyInv(s) && t == s.(w := t.w, rpc := t.rpc, effects := t.effects) && PhaseInv(t)
    ensures MoneyInv(t)
  {
    forall i | 0 <= i < |s.j.events| ensures EventOk(t, s.j.events[i]) {
      assert EventOk(s, s.j.events[i]);
    }
  }

  /** Marking a row SENT uses a permit that nothing has mentioned yet. */
  lemma MarkSentKeeps(s: System)
    requires MoneyInv(s)
    ensures MoneyInv(OnMarkSent(s))
  {
    hide GrantInv, AnswerInv;
    var t := OnMarkSent(s);
    if t != s {
      var k, p := s.w.step, s.w.permit;
      assert RowOk(s.spec, s.j, s.c.grants, k);
      forall i | 0 <= i < |s.calls| && s.calls[i].step == k
          ensures CallOk(t.j, t.c.grants, t.c.ledger.permits, s.calls[i]) {
        assert CallOk(s.j, s.c.grants, s.c.ledger.permits, s.calls[i]);
      }
      forall i | 0 <= i < |s.j.events| && (s.j.events[i].AnswerEvent? || s.j.events[i].FailureEvent?)
          && s.j.events[i].step == k ensures EventOk(t, s.j.events[i]) {
        assert EventOk(s, s.j.events[i]) && Subject(s.j.events[i]) != Some(p);
      }
      RowFrame(s, t, k);
    }
  }

  lemma NewCallIsOk(s: System)
    requires MoneyInv(s) && s.w.Armed?
    ensures CallInv(OnCallProvider(s))
  {
    hide EventInv, AnswerInv;
    var t := OnCallProvider(s);
    var k, p := s.w.step, s.w.permit;
    assert RowOk(s.spec, s.j, s.c.grants, k);
    forall i | 0 <= i < |s.calls|
      ensures CallOk(t.j, t.c.grants, t.c.ledger.permits, s.calls[i])
          && (s.calls[i].step == k ==> s.calls[i].transport < s.j.models[k].attempts)
    {
      assert CallOk(s.j, s.c.grants, s.c.ledger.permits, s.calls[i]);
    }
    assert GrantOk(s.spec, s.j, s.c.grants, s.c.ledger.permits, p);
  }

  lemma NewCallKeepsEvents(s: System)
    requires MoneyInv(s) && s.w.Armed?
    ensures EventInv(OnCallProvider(s))
  {
    hide GrantInv, CallInv, AnswerInv;
    var t := OnCallProvider(s);
    if s.w.step in s.j.models { assert RowOk(s.spec, s.j, s.c.grants, s.w.step); }
    forall i | 0 <= i < |t.j.events| ensures EventOk(t, t.j.events[i]) {
      assert EventOk(s, s.j.events[i]);
    }
  }

  lemma CallProviderKeeps(s: System)
    requires MoneyInv(s)
    ensures MoneyInv(OnCallProvider(s))
  {
    hide CallInv, EventInv;
    if s.w.Armed? {
      NewCallIsOk(s);
      NewCallKeepsEvents(s);
    }
  }

  /** Learning what became of the last call. */
  lemma JudgeKeeps(s: System, v: Verdict, w: Phase)
    requires MoneyInv(s) && s.w.Calling?
    requires (w == Refused(s.w.step, s.w.permit) && v.ProvedUnsent?)
          || (w.Answered? && w.step == s.w.step && w.permit == s.w.permit && v.Delivered?)
    ensures MoneyInv(s.(w := w, calls := Judge(s.calls, v)))
  {
    var t := s.(w := w, calls := Judge(s.calls, v));
    var n := |s.calls| - 1;
    forall i | 0 <= i < |t.calls| ensures CallOk(t.j, t.c.grants, t.c.ledger.permits, t.calls[i]) {
      assert CallOk(s.j, s.c.grants, s.c.ledger.permits, s.calls[i]);
    }
    forall i | 0 <= i < |t.j.events| ensures EventOk(t, t.j.events[i]) {
      var e := s.j.events[i];
      assert EventOk(s, e);
      if e.FailureEvent? && e.notSent {
        assert e.permit != s.w.permit;
      }
    }
  }

  lemma FailureKeeps(s: System)
    requires MoneyInv(s)
    ensures MoneyInv(OnFailure(s))
  {
    PhaseFrame(s, OnFailure(s));
  }

  /** Recording the provider's answer, with its event. */
  lemma RecordKeeps(s: System)
    requires MoneyInv(s)
    ensures MoneyInv(OnRecord(s))
  {
    hide GrantInv, EventInv, AnswerInv;
    if s.w.Answered? || s.w.Refused? || s.w.Lost? {
      ResolveRow(s, OnRecord(s), s.w.step, s.w.permit);
    }
  }

  ghost predicate Resolved(s: System, t: System, k: nat, p: nat) {
    && k in s.j.models && s.j.models[k].state.CallSent? && s.j.models[k].permit == Some(p)
    && !s.w.Down? && s.rpc.NoRpc? && t == s.(j := t.j, w := Idle)
    && ((exists r :: Usable(s, p) && ModelResponse(s.j, k, r) == Ok(t.j))
        || t.j == ModelFailure(s.j, k, false)
        || (t.j == ModelFailure(s.j, k, true) && Unsent(s.calls, p) && LastCall(s, k, p)))
  }

  lemma ResolvedCalls(s: System, t: System, k: nat, p: nat, i: nat)
    requires MoneyInv(s) && Resolved(s, t, k, p) && i < |s.calls| && s.calls[i].step == k
    ensures CallOk(t.j, t.c.grants, t.c.ledger.permits, s.calls[i])
  {
    hide JournalInv, GrantInv, EventInv, AnswerInv;
    assert CallOk(s.j, s.c.grants, s.c.ledger.permits, s.calls[i]);
    assert s.calls[i].transport == s.j.models[k].attempts ==> s.calls[i].permit == p;
  }

  lemma ResolvedEvents(s: System, t: System, k: nat, p: nat, i: nat)
    requires MoneyInv(s) && Resolved(s, t, k, p) && i < |t.j.events|
    ensures i < |s.j.events| ==> t.j.events[i] == s.j.events[i]
    ensures (i == |s.j.events| || ((s.j.events[i].AnswerEvent? || s.j.events[i].FailureEvent?)
                                   && s.j.events[i].step == k)) ==>
      EventOk(t, t.j.events[i])
  {
    hide GrantInv, CallInv, AnswerInv;
    assert RowOk(s.spec, s.j, s.c.grants, k);
    if i < |s.j.events| {
      assert EventOk(s, s.j.events[i]);
    }
  }

  /** A SENT row is resolved one way or the other, and the event that says so is appended. */
  lemma ResolveRow(s: System, t: System, k: nat, p: nat)
    requires MoneyInv(s) && Resolved(s, t, k, p)
    ensures MoneyInv(t)
  {
    hide GrantInv, CallInv, EventInv, AnswerInv;
    assert RowOk(s.spec, s.j, s.c.grants, k);
    assert t.j.events[..|s.j.events|] == s.j.events;
    forall i | 0 <= i < |s.calls| && s.calls[i].step == k
        ensures CallOk(t.j, t.c.grants, t.c.ledger.permits, s.calls[i]) {
      ResolvedCalls(s, t, k, p, i);
    }
    forall i | 0 <= i < |s.j.events| && (s.j.events[i].AnswerEvent? || s.j.events[i].FailureEvent?)
        && s.j.events[i].step == k
      ensures EventOk(t, s.j.events[i])
    {
      ResolvedEvents(s, t, k, p, i);
    }
    ResolvedEvents(s, t, k, p, |s.j.events|);
    RowFrame(s, t, k);
  }

  lemma MarkLostKeeps(s: System)
    requires MoneyInv(s)
    ensures MoneyInv(OnMarkLost(s))
  {
    var t, k := OnMarkLost(s), s.j.nextStep;
    if t != s {
      ResolveRow(s, t, k, s.j.models[k].permit.value);
    }
  }

  /** An idle worker's checkpoint moves on. */
  lemma AdvanceFrame(s: System, entries: seq<nat>, w: Phase)
    requires MoneyInv(s) && s.w.Idle? && (w.Idle? || w.Correcting?)
    ensures MoneyInv(s.(j := Advance(s.j, s.j.nextStep + 1, s.j.history + entries), w := w))
  {
    var t := s.(j := Advance(s.j, s.j.nextStep + 1, s.j.history + entries), w := w);
    forall k | k in t.j.models ensures RowOk(t.spec, t.j, t.c.grants, k) {
      assert RowOk(s.spec, s.j, s.c.grants, k);
    }
    forall q | q in t.c.grants ensures GrantOk(t.spec, t.j, t.c.grants, t.c.ledger.permits, q) {
      assert GrantOk(s.spec, s.j, s.c.grants, s.c.ledger.permits, q);
    }
    forall i | 0 <= i < |t.j.events| ensures EventOk(t, t.j.events[i]) {
      if i < |s.j.events| { assert EventOk(s, s.j.events[i]); }
    }
    forall i | 0 <= i < |s.calls| ensures CallOk(t.j, t.c.grants, t.c.ledger.permits, s.calls[i]) {
      assert CallOk(s.j, s.c.grants, s.c.ledger.permits, s.calls[i]);
    }
  }

  lemma NextStepKeeps(s: System, entries: seq<nat>)
    requires MoneyInv(s)
    ensures MoneyInv(OnNextStep(s, entries)) && MoneyInv(OnBeginCorrection(s, entries))
  {
    hide MoneyInv;
    if s.w.Idle? {
      AdvanceFrame(s, entries, Idle);
      AdvanceFrame(s, entries, Correcting);
    }
  }

  // ---- Tools ----

  /** Tool rows play no part in the money invariant. */
  lemma ToolFrame(s: System, t: System)
    requires MoneyInv(s)
    requires t.spec == s.spec && t.calls == s.calls && t.connected == s.connected
        && t.c == s.c.(commands := t.c.commands)
    requires t.j == s.j.(tools := t.j.tools, events := t.j.events, acked := t.j.acked, file := t.j.file)
    requires t.j.events == s.j.events
        || (|t.j.events| == |s.j.events| + 1 && t.j.events[..|s.j.events|] == s.j.events
        && t.j.events[|s.j.events|].ToolEvent?)
    requires PhaseInv(t)
    ensures MoneyInv(t)
  {
    forall k | k in t.j.models ensures RowOk(t.spec, t.j, t.c.grants, k) {
      assert RowOk(s.spec, s.j, s.c.grants, k);
    }
    forall q | q in t.c.grants ensures GrantOk(t.spec, t.j, t.c.grants, t.c.ledger.permits, q) {
      assert GrantOk(s.spec, s.j, s.c.grants, s.c.ledger.permits, q);
    }
    forall i | 0 <= i < |t.j.events| ensures EventOk(t, t.j.events[i]) {
      if i < |s.j.events| {
        assert t.j.events[i] == s.j.events[i];
        assert EventOk(s, s.j.events[i]);
      }
    }
    forall i | 0 <= i < |s.calls| ensures CallOk(t.j, t.c.grants, t.c.ledger.permits, s.calls[i]) {
      assert CallOk(s.j, s.c.grants, s.c.ledger.permits, s.calls[i]);
    }
  }

  lemma OpenJournalKeeps(s: System)
    requires MoneyInv(s)
    ensures MoneyInv(OnOpenJournal(s)) && MoneyInv(OnCrash(s))
  {
    hide JournalInv, GrantInv, CallInv, EventInv, AnswerInv;
    ToolFrame(s, OnOpenJournal(s));
    ToolFrame(s, OnCrash(s));
  }

  lemma AcknowledgeKeeps(s: System, n: nat)
    requires MoneyInv(s)
    ensures MoneyInv(OnAcknowledge(s, n))
  {
    hide JournalInv, GrantInv, CallInv, EventInv, AnswerInv;
    ToolFrame(s, OnAcknowledge(s, n));
  }

  lemma PrepareToolKeeps(s: System, id: ToolId, tool: Tool, args: nat)
    requires MoneyInv(s)
    ensures MoneyInv(OnPrepareTool(s, id, tool, args))
  {
    hide JournalInv, GrantInv, CallInv, EventInv, AnswerInv;
    ToolFrame(s, OnPrepareTool(s, id, tool, args));
  }

  lemma BeginToolKeeps(s: System, id: ToolId)
    requires MoneyInv(s)
    ensures MoneyInv(OnBeginTool(s, id))
  {
    hide JournalInv, GrantInv, CallInv, EventInv, AnswerInv;
    if OnBeginTool(s, id) != s {
      ToolFrame(s, OnBeginTool(s, id));
    }
  }

  lemma RecordToolKeeps(s: System)
    requires MoneyInv(s)
    ensures MoneyInv(OnRecordTool(s))
  {
    hide JournalInv, GrantInv, CallInv, EventInv, AnswerInv;
    ToolFrame(s, OnRecordTool(s));
  }

  lemma FinishToolKeeps(s: System, id: ToolId)
    requires MoneyInv(s)
    ensures MoneyInv(OnDenyTool(s, id)) && MoneyInv(OnFetchReceipt(s, id))
  {
    hide JournalInv, GrantInv, CallInv, EventInv, AnswerInv;
    ToolFrame(s, OnDenyTool(s, id));
    ToolFrame(s, OnFetchReceipt(s, id));
  }

  lemma RunToolKeeps(s: System, success: bool, output: nat)
    requires MoneyInv(s)
    ensures MoneyInv(OnRunLocal(s, success, output)) && MoneyInv(OnCommitReceipt(s, success, output))
  {
    hide JournalInv, GrantInv, CallInv, EventInv, AnswerInv;
    ToolFrame(s, OnRunLocal(s, success, output));
    ToolFrame(s, OnCommitReceipt(s, success, output));
  }

  lemma CommandKeeps(s: System)
    requires MoneyInv(s)
    ensures MoneyInv(OnAcceptCommand(s)) && MoneyInv(OnRefuseCommand(s)) && MoneyInv(OnCommitEffect(s))
  {
    hide JournalInv, GrantInv, CallInv, EventInv, AnswerInv;
    ToolFrame(s, OnAcceptCommand(s));
    ToolFrame(s, OnRefuseCommand(s));
    ToolFrame(s, OnCommitEffect(s));
  }
}
