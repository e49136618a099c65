/** The invariant of the worker protocol that links journal rows, grants, permits and the history of provider calls. */
module WorkerSafety {
  import opened Wrappers
  import opened AttemptStates
  import opened Journal
  import opened WorkerProtocol
  import Ledger

  type Permits = seq<Ledger.Permit>

  // ---- Invariants ----

  ghost predicate RowOk(spec: Spec, j: Rows, grants: map<nat, Grant>, k: nat)
    requires k in j.models
  {
    var r := j.models[k];
    && k <= j.nextStep && k < spec.maxSteps
    && (k == j.nextStep ==> r.request == j.history)
    && r.attempts <= spec.retries + 1
    && (r.permit.None? <==> r.attempts == 0)
    && (r.permit.Some? ==> r.permit.value in grants && grants[r.permit.value].step == k)
    && (r.state.Prepared? ==> r.attempts <= spec.retries)
    && (!r.state.Prepared? ==> r.attempts > 0)
    && (r.response.Some? <==> r.state.Responded?)
  }

  ghost predicate JournalInv(s: System) {
    && s.spec.retries <= 1
    && (s.j.nextStep == 0 ==> s.j.history == [])
    && forall k :: k in s.j.models ==> RowOk(s.spec, s.j, s.c.grants, k)
  }

  ghost predicate GrantOk(spec: Spec, j: Rows, grants: map<nat, Grant>, permits: Permits, p: nat)
    requires p in grants
  {
    && p < |permits| && grants[p].step in j.models
    && permits[p].source == Some(SourceOf(spec, grants[p].step))
    && permits[p].request == Ledger.StepRequest(grants[p].step, j.models[grants[p].step].request)
  }

  ghost predicate GrantInv(s: System) {
    && s.c.firstPermit < |s.c.ledger.permits|
    && s.c.ledger.permits[s.c.firstPermit].source == Some(SourceOf(s.spec, 0))
    && s.c.ledger.permits[s.c.firstPermit].request == Ledger.StepRequest(0, [])
    && forall p :: p in s.c.grants ==> GrantOk(s.spec, s.j, s.c.grants, s.c.ledger.permits, p)
  }

  ghost predicate Unsent(calls: seq<ProviderCall>, p: nat) {
    forall i :: 0 <= i < |calls| && calls[i].permit == p ==> calls[i].verdict.ProvedUnsent?
  }

  ghost predicate Uncalled(calls: seq<ProviderCall>, p: nat) {
    forall i :: 0 <= i < |calls| ==> calls[i].permit != p
  }

  ghost predicate CallOk(j: Rows, grants: map<nat, Grant>, permits: Permits, c: ProviderCall) {
    && c.permit in grants && c.permit < |permits| && grants[c.permit].step == c.step && c.step in j.models
    && var r := j.models[c.step];
    && 1 <= c.transport <= r.attempts
    && (c.transport < r.attempts ==> c.verdict.ProvedUnsent?)
    && (c.transport == r.attempts ==> r.permit == Some(c.permit))
    && (r.state.Prepared? || r.state.CallNotSent? ==> c.verdict.ProvedUnsent?)
    && (!c.verdict.ProvedUnsent? ==> !permits[c.permit].state.NotSent?)
  }

  ghost predicate CallInv(s: System) {
    && (forall i :: 0 <= i < |s.calls| ==> CallOk(s.j, s.c.grants, s.c.ledger.permits, s.calls[i]))
    && (forall i, i' :: 0 <= i < i' < |s.calls| ==> s.calls[i].permit != s.calls[i'].permit)
    && (forall i, i' :: 0 <= i < i' < |s.calls| && s.calls[i].step == s.calls[i'].step ==>
        s.calls[i].transport < s.calls[i'].transport)
  }

  /** The permit an event speaks of. */
  function Subject(e: Event): Option<nat> {
    match e
    case AnswerEvent(_, p, _) => Some(p)
    case FailureEvent(_, p, _) => Some(p)
    case _ => None
  }

  ghost predicate EventOk(s: System, e: Event) {
    match e
    case AnswerEvent(k, p, response) =>
      p in s.c.grants && s.c.grants[p].step == k && k in s.j.models && s.j.models[k].state.Responded?
      && s.j.models[k].permit == Some(p) && s.j.models[k].response == Some(response)
    case FailureEvent(k, p, notSent) =>
      p in s.c.grants && s.c.grants[p].step == k && k in s.j.models && s.j.models[k].attempts > 0
      && (notSent ==> Unsent(s.calls, p))
      && ((s.j.models[k].state.CallSent? || s.j.models[k].state.Responded?) ==> s.j.models[k].permit != Some(p))
    case FinishEvent(kind, _) => !Active(kind)
    case _ => true
  }

  ghost predicate EventInv(s: System) {
    forall i :: 0 <= i < |s.j.events| ==> EventOk(s, s.j.events[i])
  }

  ghost predicate Unmentioned(events: seq<Event>, p: nat) {
    forall i :: 0 <= i < |events| ==> Subject(events[i]) != Some(p)
  }

  ghost predicate Usable(s: System, p: nat) {
    p < |s.c.ledger.permits| && !s.c.ledger.permits[p].state.NotSent?
  }

  /** The row a call is being made for. */
  ghost predicate InCall(s: System, k: nat, p: nat) {
    && k in s.j.models && s.j.models[k].state.CallSent? && s.j.models[k].permit == Some(p) && Usable(s, p)
  }

  /** The last call of the history is the one the worker is waiting for. */
  ghost predicate LastCall(s: System, k: nat, p: nat) {
    && |s.calls| > 0 && s.calls[|s.calls| - 1].permit == p && s.calls[|s.calls| - 1].step == k
    && k in s.j.models && s.calls[|s.calls| - 1].transport == s.j.models[k].attempts
  }

  ghost predicate AskOk(s: System, k: nat, history: seq<nat>) {
    k in s.j.models && s.j.models[k].state.Prepared? && s.j.models[k].request == history && k == s.j.nextStep
  }

  ghost predicate PhaseInv(s: System) {
    && (s.rpc.AskPermit? ==> (s.w == Asking(s.rpc.step) || s.w.Down?) && AskOk(s, s.rpc.step, s.rpc.history))
    && (s.rpc.AskCommand? ==> s.w == Commanding(s.rpc.id) || s.w.Down?)
    && (!s.rpc.NoRpc? ==> s.connected && !s.c.launch.LaunchReady? && !s.c.launch.LaunchSuspended?)
    && (s.c.launch.LaunchReady? || s.c.launch.LaunchSuspended? ==> s.w.Down?)
    && match s.w
       case Asking(k) => k == s.j.nextStep && k in s.j.models && s.j.models[k].state.Prepared?
       case Permitted(k, p) =>
         k in s.j.models && s.j.models[k].state.Prepared? && p in s.c.grants && s.c.grants[p].step == k && Usable(s, p)
         && Uncalled(s.calls, p) && Unmentioned(s.j.events, p) && k == s.j.nextStep
       case Armed(k, p) => InCall(s, k, p) && Uncalled(s.calls, p)
       case Calling(k, p) => InCall(s, k, p) && LastCall(s, k, p)
       case Answered(k, p, _) => InCall(s, k, p) && LastCall(s, k, p)
       case Refused(k, p) => InCall(s, k, p) && LastCall(s, k, p) && s.calls[|s.calls| - 1].verdict.ProvedUnsent?
       case Lost(k, p) => InCall(s, k, p) && LastCall(s, k, p)
       case _ => true
  }

  /** A recorded response belongs to a permit that is not proved unsent. */
  ghost predicate AnswerInv(s: System) {
    forall k :: k in s.j.models && s.j.models[k].state.Responded? ==>
        s.j.models[k].permit.Some? && Usable(s, s.j.models[k].permit.value)
  }

  ghost predicate DeliveryInv(s: System) {
    && (forall n :: n in s.c.inbox ==> 1 <= n <= |s.j.events| && s.c.inbox[n] == s.j.events[n - 1])
    && s.c.lastSequence <= |s.j.events|
    && s.c.applied == s.j.events[..s.c.lastSequence]
    && (forall n :: 1 <= n <= s.c.lastSequence ==> n in s.c.inbox)
    && s.c.lastSequence + 1 !in s.c.inbox
    && (forall n :: n in s.j.acked ==> n in s.c.inbox)
  }

  ghost predicate MoneyInv(s: System) {
    && JournalInv(s) && GrantInv(s) && CallInv(s) && EventInv(s) && PhaseInv(s) && AnswerInv(s)
  }

  // ---- Frames ----

  /** Everything `MoneyInv` reads, except the permits. */
  ghost predicate SameExceptPermits(s: System, t: System) {
    && t.spec == s.spec && t.j == s.j && t.w == s.w && t.rpc == s.rpc && t.connected == s.connected
        && t.calls == s.calls
    && t.c.grants == s.c.grants && t.c.firstPermit == s.c.firstPermit
    && (t.c.launch.LaunchReady? || t.c.launch.LaunchSuspended? ==>
        s.c.launch == t.c.launch || (s.w.Down? && s.rpc.NoRpc?))
  }

  ghost predicate Allowed(s: System, t: System) {
    && SameExceptPermits(s, t) && Ledger.Evolves(s.c.ledger, t.c.ledger)
    && forall p ::
        0 <= p < |s.c.ledger.permits| && t.c.ledger.permits[p].state.NotSent?
        && !s.c.ledger.permits[p].state.NotSent? ==>
         MayFail(s, p)
  }

  lemma LedgerFrameRows(s: System, t: System)
    requires JournalInv(s) && GrantInv(s) && CallInv(s) && Allowed(s, t)
    ensures JournalInv(t) && GrantInv(t) && CallInv(t)
  {
    assert forall p :: 0 <= p < |s.c.ledger.permits| ==>
        Ledger.RowEvolves(s.c.ledger.permits[p], t.c.ledger.permits[p]);
    forall p | p in t.c.grants ensures GrantOk(t.spec, t.j, t.c.grants, t.c.ledger.permits, p) {
      assert GrantOk(s.spec, s.j, s.c.grants, s.c.ledger.permits, p);
    }
    forall i | 0 <= i < |s.calls| ensures CallOk(t.j, t.c.grants, t.c.ledger.permits, s.calls[i]) {
      assert CallOk(s.j, s.c.grants, s.c.ledger.permits, s.calls[i]);
    }
  }

  lemma LedgerFramePhase(s: System, t: System)
    requires EventInv(s) && PhaseInv(s) && AnswerInv(s) && Allowed(s, t)
    ensures EventInv(t) && PhaseInv(t) && AnswerInv(t)
  {
    assert forall p :: 0 <= p < |s.c.ledger.permits| ==>
        Ledger.RowEvolves(s.c.ledger.permits[p], t.c.ledger.permits[p]);
    forall i | 0 <= i < |s.j.events| ensures EventOk(t, s.j.events[i]) {
      assert EventOk(s, s.j.events[i]);
    }
  }

  /** The money rows may change in any way that proves no call unsent that could still be delivered. */
  lemma LedgerFrame(s: System, t: System)
    requires MoneyInv(s) && Allowed(s, t)
    ensures MoneyInv(t)
  {
    hide JournalInv, GrantInv, CallInv, EventInv, PhaseInv, AnswerInv, Allowed;
    LedgerFrameRows(s, t);
    LedgerFramePhase(s, t);
  }

  /** A permit that may be proved unsent: no call under it may have been delivered, none is under way, no answer is
      recorded. */
  ghost predicate MayFail(s: System, p: nat) {
    && Unsent(s.calls, p)
    && (match s.w
        case Permitted(_, q) => p != q
        case Armed(_, q) => p != q
        case Calling(_, q) => p != q
        case Answered(_, q, _) => p != q
        case Refused(_, q) => p != q
        case Lost(_, q) => p != q
        case _ => true)
    && (forall k :: k in s.j.models && s.j.models[k].state.Responded? ==> s.j.models[k].permit != Some(p))
  }

  lemma AppendFrameRows(s: System, t: System)
    requires JournalInv(s) && GrantInv(s) && CallInv(s)
    requires t.spec == s.spec && t.c == s.c && t.calls == s.calls
    requires t.j == s.j.(events := t.j.events, terminal := t.j.terminal)
    ensures JournalInv(t) && GrantInv(t) && CallInv(t)
  {
    forall k | k in t.j.models ensures RowOk(t.spec, t.j, t.c.grants, k) {
      assert RowOk(s.spec, s.j, s.c.grants, k);
    }
    forall p | p in t.c.grants ensures GrantOk(t.spec, t.j, t.c.grants, t.c.ledger.permits, p) {
      assert GrantOk(s.spec, s.j, s.c.grants, s.c.ledger.permits, p);
    }
    forall i | 0 <= i < |s.calls| ensures CallOk(t.j, t.c.grants, t.c.ledger.permits, s.calls[i]) {
      assert CallOk(s.j, s.c.grants, s.c.ledger.permits, s.calls[i]);
    }
  }

  /** An event whose permit belongs to no call, or a worker that only leaves. */
  lemma AppendFrame(s: System, e: Event, w: Phase, terminal: Option<AttemptState>)
    requires MoneyInv(s) && Subject(e).None? && (e.FinishEvent? ==> !Active(e.kind))
    requires w == s.w || w.Down?
    ensures MoneyInv(s.(j := Append(s.j, e).(terminal := terminal), w := w))
  {
    hide JournalInv, GrantInv, CallInv;
    var t := s.(j := Append(s.j, e).(terminal := terminal), w := w);
    AppendFrameRows(s, t);
    forall i | 0 <= i < |t.j.events| ensures EventOk(t, t.j.events[i]) {
      if i < |s.j.events| {
        assert EventOk(s, s.j.events[i]);
      }
    }
  }
}
