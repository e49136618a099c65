/** Workers beside the services that admit them: what a scope's allowance means for the calls of all its attempts, and
    what a superseded attempt may still do (company_worker_adapter.ts, company_progress_service.ts). */
module WorkerAdmission {
  import opened Wrappers
  import opened AttemptStates
  import opened WorkerProtocol
  import opened WorkerRuns
  import opened WorkerSafety
  import opened WorkerTools
  import opened WorkerTheorems
  import opened WorkerReports
  import opened WorkerResults
  import Execution
  import Ledger
  import Progress

  // ---- Several workers under the allowances of one goal ----

  /** The specification of a worker has at most so many steps. */
  const STEP_LIMIT: nat := 20

  /** An attempt, the dispatch it works for, and the node of that dispatch's occurrence. */
  datatype Worker = Worker(system: System, dispatch: nat, node: nat)

  /** The workers, each with its own view of everyone else, and the rows of their goal. `charged` and `closed` record,
      of one scope, every model call it was ever charged with, and how many its earlier windows were; no act reads
      them. */
  datatype Company = Company(
    workers: seq<Worker>,
    progress: Progress.State,
    charged: set<Progress.OperationKey>,
    closed: nat)

  datatype Act = Work(worker: nat, move: Move, now: nat) | Plan(op: Progress.Op)

  /** `attempt:model:step`. */
  function Operation(attempt: nat, step: nat): nat {
    attempt * STEP_LIMIT + step
  }

  function KeyOf(s: System, step: nat, transport: nat): Progress.OperationKey {
    Progress.ModelKey(Operation(s.spec.attempt, step), transport)
  }

  /** What `authorizeModel` does to the goal's rows: the call is charged, then its window is opened. */
  function Charge(p: Progress.State, w: Worker, now: nat): Result<Progress.State>
    requires w.system.rpc.AskPermit? && w.system.rpc.step in w.system.j.models
  {
    var s := w.system;
    var k := s.rpc.step;
    var b := Progress.BeforeModel(p, w.dispatch, Some(w.node), s.spec.attempt, Operation(s.spec.attempt, k),
        s.j.models[k].attempts + 1, now);
    if b.Err? then b else Progress.StartWindow(b.value, w.dispatch, now)
  }

  function Judged(t: Terms, r: Result<Progress.State>): Terms {
    t.(denied := if t.denied.Some? then t.denied else if r.Err? then Some(r.error) else None)
  }

  /** A dispatch joins its scope when it is made, before a worker of it asks for anything. */
  predicate MayAsk(c: Company, w: Worker) {
    w.system.rpc.AskPermit? && w.system.rpc.step in w.system.j.models
    && Progress.ForDispatch(c.progress.scopes, w.dispatch).Some?
  }

  /** Permit, grant and charge are one transaction. */
  function Answer(c: Company, i: nat, t: Terms, now: nat): Company
    requires i < |c.workers| && MayAsk(c, c.workers[i])
  {
    var w := c.workers[i];
    var s, r := w.system, Charge(c.progress, w, now);
    var judged := Judged(t, r);
    c.(workers := c.workers[i := w.(system := OnAnswerPermit(s, judged))],
       progress := if r.Ok? && Authorize(s.spec, s.c, s.rpc.step, s.rpc.history, judged).Ok? then r.value
       else c.progress)
  }

  /** Only `authorizeModel` charges model calls. */
  function Acted(c: Company, a: Act): Company {
    match a
    case Work(i, m, now) =>
      if i >= |c.workers| then c
      else if m.AnswerPermit? then if MayAsk(c, c.workers[i]) then Answer(c, i, m.terms, now) else c
      else c.(workers := c.workers[i := c.workers[i].(system := Next(c.workers[i].system, m))])
    case Plan(op) => if op.ModelOp? then c else c.(progress := Progress.Step(c.progress, op))
  }

  predicate Resets(p: Progress.State, a: Act, j: nat) {
    a.Plan? && a.op.ResetOp? && Progress.ForDispatch(p.scopes, a.op.dispatch) == Some(j)
  }

  /** The model calls a scope has been charged with in its present window. */
  function Keys(p: Progress.State, j: nat): set<Progress.OperationKey> {
    if j < |p.scopes| then set k | k in p.scopes[j].operations && k.ModelKey? else {}
  }

  function Asked(p: Progress.State, j: nat): nat {
    if j < |p.scopes| then p.scopes[j].modelCalls else 0
  }

  /** One act, seen from scope `j`. */
  function Step(c: Company, j: nat, a: Act): Company {
    var t := Acted(c, a);
    t.(charged := c.charged + Keys(t.progress, j),
       closed := c.closed + if Resets(c.progress, a, j) then Asked(c.progress, j) else 0)
  }

  function Life(c: Company, j: nat, acts: seq<Act>): Company {
    if acts == [] then c else Step(Life(c, j, acts[..|acts| - 1]), j, acts[|acts| - 1])
  }

  /** Claimed attempts, none of them started, and a goal without scopes. */
  ghost predicate Fresh(c: Company) {
    && c.progress == Progress.INITIAL && c.charged == {} && c.closed == 0
    && (forall i :: 0 <= i < |c.workers| ==>
          Created(c.workers[i].system) && c.workers[i].system.spec.maxSteps <= STEP_LIMIT)
    && (forall i, i' :: 0 <= i < i' < |c.workers| ==>
          c.workers[i].system.spec.attempt != c.workers[i'].system.spec.attempt)
  }

  // ---- Scopes ----

  ghost predicate ScopeGrows(a: Progress.Scope, b: Progress.Scope) {
    && (forall d :: d in a.dispatches ==> d in b.dispatches)
    && (b.operations == a.operations || exists o :: b.operations == a.operations + [Progress.ToolKey(o)])
    && b.modelCalls == a.modelCalls && b.maxModelCalls >= a.maxModelCalls
  }

  ghost predicate ScopeReset(a: Progress.Scope, b: Progress.Scope) {
    && b.dispatches == a.dispatches && b.operations == [] && b.modelCalls == 0
        && b.maxModelCalls == Progress.MODEL_CALLS
  }

  ghost predicate ScopeFresh(b: Progress.Scope) {
    b.operations == [] && b.modelCalls == 0 && b.maxModelCalls == Progress.MODEL_CALLS
  }

  ghost predicate Planned(p: Progress.State, op: Progress.Op) {
    var q := Progress.Step(p, op);
    && |p.scopes| <= |q.scopes|
    && (forall x :: 0 <= x < |p.scopes| ==>
          if op.ResetOp? && Progress.ForDispatch(p.scopes, op.dispatch) == Some(x)
          then ScopeReset(p.scopes[x], q.scopes[x]) else ScopeGrows(p.scopes[x], q.scopes[x]))
    && (forall x :: |p.scopes| <= x < |q.scopes| ==> ScopeFresh(q.scopes[x]))
  }

  lemma AttachPlans(p: Progress.State, op: Progress.Op)
    requires op.AttachOp?
    ensures Planned(p, op)
  {
    hide Progress.Chosen;
  }

  lemma CallsPlan(p: Progress.State, op: Progress.Op)
    requires op.StartOp? || op.ToolOp? || op.ResultOp? || op.EvaluateOp?
    ensures Planned(p, op)
  {
    hide Progress.RecordAttempt, Progress.CheckGaps, Progress.TouchGap, Progress.Judge, Progress.Fingerprinted;
  }

  /** The owner and the plan charge no model call. */
  lemma PlanScopes(p: Progress.State, op: Progress.Op)
    requires !op.ModelOp?
    ensures Planned(p, op)
  {
    if op.AttachOp? {
      AttachPlans(p, op);
    } else if op.StartOp? || op.ToolOp? || op.ResultOp? || op.EvaluateOp? {
      CallsPlan(p, op);
    }
  }

  /** Charging a call for a dispatch of scope `x`. */
  lemma ChargeScopes(p: Progress.State, w: Worker, now: nat, x: nat)
    requires w.system.rpc.AskPermit? && w.system.rpc.step in w.system.j.models
    requires Progress.ForDispatch(p.scopes, w.dispatch) == Some(x) && Charge(p, w, now).Ok?
    ensures
      var q, k := Charge(p, w, now).value, w.system.rpc.step;
      var key := KeyOf(w.system, k, w.system.j.models[k].attempts + 1);
      && |q.scopes| == |p.scopes| && (forall y :: 0 <= y < |p.scopes| && y != x ==> q.scopes[y] == p.scopes[y])
      && q.scopes[x].dispatches == p.scopes[x].dispatches && q.scopes[x].maxModelCalls == p.scopes[x].maxModelCalls
      && key in q.scopes[x].operations && q.scopes[x].modelCalls < q.scopes[x].maxModelCalls
      && ((q.scopes[x].operations == p.scopes[x].operations && q.scopes[x].modelCalls == p.scopes[x].modelCalls)
          || (q.scopes[x].operations == p.scopes[x].operations + [key]
              && q.scopes[x].modelCalls == p.scopes[x].modelCalls + 1))
  {
    var s, k := w.system, w.system.rpc.step;
    var b := Progress.BeforeModel(p, w.dispatch, Some(w.node), s.spec.attempt, Operation(s.spec.attempt, k),
        s.j.models[k].attempts + 1, now).value;
    Progress.SameDispatches(p.scopes, b.scopes, w.dispatch);
  }

  // ---- Calls are paid for ----

  ghost predicate Called(s: System, charged: set<Progress.OperationKey>) {
    forall i :: 0 <= i < |s.calls| ==> KeyOf(s, s.calls[i].step, s.calls[i].transport) in charged
  }

  /** Every call made, and the one about to be made, has been charged. */
  ghost predicate Paid(s: System, charged: set<Progress.OperationKey>) {
    && Called(s, charged)
    && (s.w.Permitted? && s.w.step in s.j.models ==>
          KeyOf(s, s.w.step, s.j.models[s.w.step].attempts + 1) in charged)
    && (s.w.Armed? && s.w.step in s.j.models ==> KeyOf(s, s.w.step, s.j.models[s.w.step].attempts) in charged)
  }

  /** No call, no row and no permission of the worker changes. */
  ghost predicate Rests(s: System, t: System) {
    && t.spec == s.spec && t.calls == s.calls && t.j.models == s.j.models
    && (t.w == s.w || (!t.w.Permitted? && !t.w.Armed?))
  }

  lemma PaidFrame(s: System, t: System, charged: set<Progress.OperationKey>, more: set<Progress.OperationKey>)
    requires Paid(s, charged) && Rests(s, t) && charged <= more
    ensures Paid(t, more)
  {
    forall i | 0 <= i < |t.calls| ensures KeyOf(t, t.calls[i].step, t.calls[i].transport) in more {
      assert KeyOf(s, s.calls[i].step, s.calls[i].transport) in charged;
    }
  }

  lemma JudgePays(s: System, v: Verdict, w: Phase, charged: set<Progress.OperationKey>)
    requires Called(s, charged) && !w.Permitted? && !w.Armed?
    ensures Paid(s.(w := w, calls := Judge(s.calls, v)), charged)
  {
    var t := s.(w := w, calls := Judge(s.calls, v));
    forall i | 0 <= i < |t.calls| ensures KeyOf(t, t.calls[i].step, t.calls[i].transport) in charged {
      assert KeyOf(s, s.calls[i].step, s.calls[i].transport) in charged;
    }
  }

  lemma SendingPays(s: System, charged: set<Progress.OperationKey>)
    requires Paid(s, charged)
    ensures Paid(OnMarkSent(s), charged) && Paid(OnCallProvider(s), charged)
  {
    var t := OnCallProvider(s);
    forall i | 0 <= i < |t.calls| ensures KeyOf(t, t.calls[i].step, t.calls[i].transport) in charged {
      if i < |s.calls| { assert KeyOf(s, s.calls[i].step, s.calls[i].transport) in charged; }
    }
    forall i | 0 <= i < |s.calls|
      ensures KeyOf(OnMarkSent(s), s.calls[i].step, s.calls[i].transport) in charged
    {
      assert KeyOf(s, s.calls[i].step, s.calls[i].transport) in charged;
    }
  }

  /** The other moves of a call change rows only while nothing is permitted. */
  lemma ModelMovesPay(s: System, m: Move, charged: set<Progress.OperationKey>)
    requires Paid(s, charged) && ModelMove(m)
    ensures Paid(Next(s, m), charged)
  {
    hide ToolNext, ProcessNext, LeavingNext, RecoveryNext, ControllerNext, Judge, KeyOf;
    match m
    case MarkSent => SendingPays(s, charged);
    case CallProvider => SendingPays(s, charged);
    case ProviderAnswers(r) => if s.w.Calling? { JudgePays(s, Delivered, Answered(s.w.step, s.w.permit, r), charged); }
    case ProviderRefuses => if s.w.Calling? { JudgePays(s, ProvedUnsent, Refused(s.w.step, s.w.permit), charged); }
    case _ => UnpermittedMovesPay(s, m, charged);
  }

  lemma UnpermittedMovesPay(s: System, m: Move, charged: set<Progress.OperationKey>)
    requires Paid(s, charged) && ModelMove(m)
    requires !m.MarkSent? && !m.CallProvider? && !m.ProviderAnswers? && !m.ProviderRefuses?
    ensures Paid(Next(s, m), charged)
  {
    hide ToolNext, ProcessNext, LeavingNext, RecoveryNext, ControllerNext;
    var t := Next(s, m);
    assert t.spec == s.spec && t.calls == s.calls;
    assert t == s || (!t.w.Permitted? && !t.w.Armed?);
    forall i | 0 <= i < |t.calls| ensures KeyOf(t, t.calls[i].step, t.calls[i].transport) in charged {
      assert KeyOf(s, s.calls[i].step, s.calls[i].transport) in charged;
    }
  }

  lemma ToolRunsRest(s: System, m: Move)
    requires m.PrepareTool? || m.BeginTool? || m.RunLocal?
    ensures Rests(s, Next(s, m))
  {
    hide ModelNext, ProcessNext, LeavingNext, RecoveryNext, ControllerNext;
  }

  lemma ToolResultsRest(s: System, m: Move)
    requires m.RecordTool? || m.DenyTool? || m.FetchReceipt?
    ensures Rests(s, Next(s, m))
  {
    hide ModelNext, ProcessNext, LeavingNext, RecoveryNext, ControllerNext, Receipted;
  }

  lemma CommandMovesRest(s: System, m: Move)
    requires m.AcceptCommand? || m.RefuseCommand? || m.CommitEffect? || m.CommitReceipt?
    ensures Rests(s, Next(s, m))
  {
    hide ModelNext, ToolNext, LeavingNext, RecoveryNext, ControllerNext, InFlight;
  }

  lemma ProcessMovesRest(s: System, m: Move)
    requires m.OpenJournal? || m.Crash? || m.Acknowledge?
    ensures Rests(s, Next(s, m))
  {
    hide ModelNext, ToolNext, LeavingNext, RecoveryNext, ControllerNext;
  }

  lemma LeavingMovesRest(s: System, m: Move)
    requires LeavingMove(m)
    ensures Rests(s, Next(s, m))
  {
    hide ModelNext, ToolNext, ProcessNext, RecoveryNext, ControllerNext;
  }

  lemma ControllerMovesRest(s: System, m: Move)
    requires !ModelMove(m) && !ToolMove(m) && !LeavingMove(m) && !m.AnswerPermit?
    ensures Rests(s, Next(s, m))
  {
    hide ModelNext, ToolNext, ProcessNext, LeavingNext, Receive, Decide, Ledger.Step, Ledger.Fail;
  }

  lemma NextPays(s: System, m: Move, charged: set<Progress.OperationKey>)
    requires Paid(s, charged) && !m.AnswerPermit?
    ensures Paid(Next(s, m), charged)
  {
    hide Next, Paid, Rests;
    if ModelMove(m) {
      ModelMovesPay(s, m, charged);
    } else {
      if m.PrepareTool? || m.BeginTool? || m.RunLocal? {
        ToolRunsRest(s, m);
      } else if m.RecordTool? || m.DenyTool? || m.FetchReceipt? {
        ToolResultsRest(s, m);
      } else if m.OpenJournal? || m.Crash? || m.Acknowledge? {
        ProcessMovesRest(s, m);
      } else if ToolMove(m) {
        CommandMovesRest(s, m);
      } else if LeavingMove(m) {
        LeavingMovesRest(s, m);
      } else {
        ControllerMovesRest(s, m);
      }
      PaidFrame(s, Next(s, m), charged, charged);
    }
  }

  // ---- The invariant of a life ----

  /** The worker's own invariant; one whose dispatch has joined no scope was never permitted a call, and one of scope
      `j` has every call charged there. */
  ghost predicate Member(w: Worker, scopes: seq<Progress.Scope>, j: nat, charged: set<Progress.OperationKey>) {
    && Inv(w.system) && w.system.spec.maxSteps <= STEP_LIMIT
    && (Progress.ForDispatch(scopes, w.dispatch).None? ==> Paid(w.system, {}))
    && (Progress.ForDispatch(scopes, w.dispatch) == Some(j) ==> Paid(w.system, charged))
  }

  ghost predicate Distinct(workers: seq<Worker>) {
    forall i, i' :: 0 <= i < i' < |workers| ==> workers[i].system.spec.attempt != workers[i'].system.spec.attempt
  }

  ghost predicate Members(c: Company, j: nat) {
    && (forall i :: 0 <= i < |c.workers| ==> Member(c.workers[i], c.progress.scopes, j, c.charged))
    && Distinct(c.workers)
  }

  ghost predicate Books(c: Company, j: nat) {
    && Progress.Inv(c.progress) && Below(c.progress.scopes)
    && Keys(c.progress, j) <= c.charged && |c.charged| <= c.closed + Asked(c.progress, j)
  }

  /** No scope has used up its model calls. */
  ghost predicate Below(scopes: seq<Progress.Scope>) {
    forall x :: 0 <= x < |scopes| ==> scopes[x].modelCalls < scopes[x].maxModelCalls
  }

  lemma {:induction false} ScopeOf(scopes: seq<Progress.Scope>, d: nat, x: nat)
    requires Progress.OneScopeEach(scopes) && x < |scopes| && d in scopes[x].dispatches
    ensures Progress.ForDispatch(scopes, d) == Some(x)
  {
  }

  /** Dispatches never leave their scope. */
  ghost predicate Kept(before: seq<Progress.Scope>, scopes: seq<Progress.Scope>) {
    && |before| <= |scopes| && Progress.OneScopeEach(scopes)
    && forall x, d :: 0 <= x < |before| && d in before[x].dispatches ==> d in scopes[x].dispatches
  }

  lemma MemberFrame(w: Worker, before: seq<Progress.Scope>, scopes: seq<Progress.Scope>, j: nat,
      charged: set<Progress.OperationKey>, more: set<Progress.OperationKey>)
    requires Member(w, before, j, charged) && Kept(before, scopes) && charged <= more
    ensures Member(w, scopes, j, more)
  {
    hide Inv, Paid, KeyOf;
    if Progress.ForDispatch(before, w.dispatch).Some? {
      ScopeOf(scopes, w.dispatch, Progress.ForDispatch(before, w.dispatch).value);
      if Paid(w.system, charged) { PaidFrame(w.system, w.system, charged, more); }
    } else {
      PaidFrame(w.system, w.system, {}, more);
    }
  }

  lemma OneMore(a: set<Progress.OperationKey>, b: set<Progress.OperationKey>, key: Progress.OperationKey)
    requires b <= a + {key}
    ensures |a + b| <= |a| + 1
  {
    if key in a {
      assert a + b == a;
    } else {
      assert a + b == a || a + b == a + {key};
    }
  }

  lemma PlanKeepsScopes(p: Progress.State, op: Progress.Op)
    requires Progress.Inv(p) && Below(p.scopes) && !op.ModelOp?
    ensures
      var q := Progress.Step(p, op);
      Progress.Inv(q) && Below(q.scopes) && Kept(p.scopes, q.scopes)
  {
    hide Progress.Step, Progress.ScopeOk, Progress.GapOk, Progress.OneScopeEach;
    PlanScopes(p, op);
    Progress.StepKeeps(p, op);
  }

  lemma PlanKeepsKeys(p: Progress.State, op: Progress.Op, j: nat)
    requires !op.ModelOp?
    ensures
      var q := Progress.Step(p, op);
      if Resets(p, Plan(op), j) then Keys(q, j) == {} && Asked(q, j) == 0
      else Keys(q, j) == Keys(p, j) && Asked(q, j) == Asked(p, j)
  {
    hide Progress.Step;
    PlanScopes(p, op);
  }

  /** Plans and the owner keep the books: only a reset forgets charges, and it closes the window. */
  lemma PlanKeepsBooks(c: Company, j: nat, op: Progress.Op)
    requires Books(c, j) && !op.ModelOp?
    ensures Books(Step(c, j, Plan(op)), j) && Kept(c.progress.scopes, Step(c, j, Plan(op)).progress.scopes)
  {
    hide Progress.Step, Progress.Inv, Below, Kept, Keys, Asked, Next, Answer;
    PlanKeepsScopes(c.progress, op);
    PlanKeepsKeys(c.progress, op, j);
    assert c.charged + {} == c.charged && c.charged + Keys(c.progress, j) == c.charged;
  }

  lemma ChargeKeepsScopes(p: Progress.State, w: Worker, now: nat)
    requires w.system.rpc.AskPermit? && w.system.rpc.step in w.system.j.models
    requires Progress.ForDispatch(p.scopes, w.dispatch).Some? && Charge(p, w, now).Ok?
    requires Progress.Inv(p) && Below(p.scopes)
    ensures
      var q := Charge(p, w, now).value;
      Progress.Inv(q) && Below(q.scopes) && Kept(p.scopes, q.scopes)
  {
    hide Progress.BeforeModel, Progress.StartWindow, Progress.ScopeOk, Progress.GapOk, Progress.OneScopeEach;
    var s, k := w.system, w.system.rpc.step;
    var attempts := s.j.models[k].attempts;
    Progress.BeforeModelKeeps(p, w.dispatch, Some(w.node), s.spec.attempt, Operation(s.spec.attempt, k), attempts + 1,
        now);
    var b := Progress.BeforeModel(p, w.dispatch, Some(w.node), s.spec.attempt, Operation(s.spec.attempt, k),
        attempts + 1, now).value;
    Progress.StepKeeps(b, Progress.StartOp(w.dispatch, now));
    ChargeScopes(p, w, now, Progress.ForDispatch(p.scopes, w.dispatch).value);
  }

  /** The key of the call a worker asks for. */
  function AskedKey(s: System): Progress.OperationKey
    requires s.rpc.AskPermit? && s.rpc.step in s.j.models
  {
    KeyOf(s, s.rpc.step, s.j.models[s.rpc.step].attempts + 1)
  }

  lemma ChargeCounts(p: Progress.State, w: Worker, now: nat, j: nat, charged: set<Progress.OperationKey>)
    requires w.system.rpc.AskPermit? && w.system.rpc.step in w.system.j.models
    requires Progress.ForDispatch(p.scopes, w.dispatch).Some? && Charge(p, w, now).Ok? && Keys(p, j) <= charged
    ensures
      var q := Charge(p, w, now).value;
      && |charged + Keys(q, j)| + Asked(p, j) <= |charged| + Asked(q, j)
      && (Progress.ForDispatch(p.scopes, w.dispatch) == Some(j) ==> AskedKey(w.system) in Keys(q, j))
  {
    hide Charge;
    var x := Progress.ForDispatch(p.scopes, w.dispatch).value;
    var q, key := Charge(p, w, now).value, AskedKey(w.system);
    ChargeScopes(p, w, now, x);
    assert key.ModelKey?;
    if Keys(q, j) == Keys(p, j) {
      assert charged + Keys(q, j) == charged;
    } else {
      OneMore(charged, Keys(q, j), key);
    }
  }

  lemma AnswerKeepsBooks(c: Company, j: nat, i: nat, t: Terms, now: nat)
    requires Books(c, j) && i < |c.workers| && MayAsk(c, c.workers[i])
    ensures
      var d := Step(c, j, Work(i, AnswerPermit(t), now));
      Books(d, j) && Kept(c.progress.scopes, d.progress.scopes)
  {
    hide Progress.Inv, Below, Kept, Keys, Asked, Next, OnAnswerPermit, Charge, Authorize;
    var w := c.workers[i];
    var r := Charge(c.progress, w, now);
    assert c.charged + Keys(c.progress, j) == c.charged;
    SameScopes(c.progress);
    if r.Ok? {
      ChargeKeepsScopes(c.progress, w, now);
      ChargeCounts(c.progress, w, now, j, c.charged);
    }
  }

  lemma SameScopes(p: Progress.State)
    requires Progress.Inv(p)
    ensures Kept(p.scopes, p.scopes)
  {
  }

  lemma WorkKeepsBooks(c: Company, j: nat, i: nat, m: Move, now: nat)
    requires Books(c, j) && !m.AnswerPermit?
    ensures
      var d := Step(c, j, Work(i, m, now));
      Books(d, j) && Kept(c.progress.scopes, d.progress.scopes)
  {
    hide Progress.Inv, Below, Kept, Keys, Asked, Next, Answer;
    assert c.charged + Keys(c.progress, j) == c.charged;
    SameScopes(c.progress);
  }

  lemma AnswerPays(s: System, t: Terms, charged: set<Progress.OperationKey>, more: set<Progress.OperationKey>)
    requires Paid(s, charged) && charged <= more && s.rpc.AskPermit? && s.rpc.step in s.j.models
    requires Authorize(s.spec, s.c, s.rpc.step, s.rpc.history, t).Ok? ==> AskedKey(s) in more
    ensures Paid(OnAnswerPermit(s, t), more)
  {
    hide Authorize, Operation;
    var u := OnAnswerPermit(s, t);
    forall i | 0 <= i < |u.calls| ensures KeyOf(u, u.calls[i].step, u.calls[i].transport) in more {
      assert KeyOf(s, s.calls[i].step, s.calls[i].transport) in charged;
    }
  }

  lemma AnswerKeepsMember(c: Company, j: nat, i: nat, t: Terms, now: nat)
    requires Books(c, j) && i < |c.workers| && MayAsk(c, c.workers[i])
    requires Member(c.workers[i], c.progress.scopes, j, c.charged)
    ensures
      var d := Step(c, j, Work(i, AnswerPermit(t), now));
      && |d.workers| == |c.workers| && (forall i' :: 0 <= i' < |d.workers| && i' != i ==>
          d.workers[i'] == c.workers[i'])
      && Member(d.workers[i], d.progress.scopes, j, d.charged)
      && d.workers[i].system.spec == c.workers[i].system.spec
  {
    hide Inv, Paid, KeyOf, AskedKey, Progress.Inv, Below, Kept, Keys, Asked, Charge, Authorize, Next;
    var d := Step(c, j, Work(i, AnswerPermit(t), now));
    var w := c.workers[i];
    var s, r := w.system, Charge(c.progress, w, now);
    var judged := Judged(t, r);
    NextIsAnswer(s, judged);
    NextKeepsInv(s, AnswerPermit(judged));
    AnswerKeepsBooks(c, j, i, t, now);
    ScopeStays(c.progress.scopes, d.progress.scopes, w.dispatch);
    if Progress.ForDispatch(c.progress.scopes, w.dispatch) == Some(j) {
      if r.Ok? { ChargeCounts(c.progress, w, now, j, c.charged); }
      DeniedIsRefused(s, judged);
      AnswerPays(s, judged, c.charged, d.charged);
    }
  }

  lemma NextIsAnswer(s: System, t: Terms)
    ensures Next(s, AnswerPermit(t)) == OnAnswerPermit(s, t) && OnAnswerPermit(s, t).spec == s.spec
  {
    hide ModelNext, ToolNext, ProcessNext, LeavingNext, RecoveryNext, Authorize;
  }

  lemma DeniedIsRefused(s: System, t: Terms)
    requires s.rpc.AskPermit?
    ensures t.denied.Some? ==> Authorize(s.spec, s.c, s.rpc.step, s.rpc.history, t).Err?
  {
  }

  lemma ScopeStays(before: seq<Progress.Scope>, scopes: seq<Progress.Scope>, d: nat)
    requires Kept(before, scopes) && Progress.ForDispatch(before, d).Some?
    ensures Progress.ForDispatch(scopes, d) == Progress.ForDispatch(before, d)
  {
    ScopeOf(scopes, d, Progress.ForDispatch(before, d).value);
  }

  lemma WorkKeepsMember(c: Company, j: nat, i: nat, m: Move, now: nat)
    requires Books(c, j) && i < |c.workers| && !m.AnswerPermit?
    requires Member(c.workers[i], c.progress.scopes, j, c.charged)
    ensures
      var d := Step(c, j, Work(i, m, now));
      && |d.workers| == |c.workers| && (forall i' :: 0 <= i' < |d.workers| && i' != i ==>
          d.workers[i'] == c.workers[i'])
      && Member(d.workers[i], d.progress.scopes, j, d.charged)
      && d.workers[i].system.spec == c.workers[i].system.spec
  {
    hide Inv, Paid, KeyOf, Progress.Inv, Below, Kept, Keys, Asked, Next, Answer;
    var s := c.workers[i].system;
    NextKeepsInv(s, m);
    SpecStays(s, m);
    assert c.charged + Keys(c.progress, j) == c.charged;
    if Paid(s, c.charged) { NextPays(s, m, c.charged); }
    if Paid(s, {}) { NextPays(s, m, {}); }
  }

  ghost predicate LifeInv(c: Company, j: nat) {
    Books(c, j) && Members(c, j)
  }

  /** The member that acted keeps its claims, and the others theirs. */
  lemma MembersFrame(c: Company, d: Company, j: nat, i: nat)
    requires Members(c, j) && Kept(c.progress.scopes, d.progress.scopes) && c.charged <= d.charged
    requires |d.workers| == |c.workers| && forall i' :: 0 <= i' < |d.workers| && i' != i ==>
        d.workers[i'] == c.workers[i']
    requires i < |d.workers| ==>
        Member(d.workers[i], d.progress.scopes, j, d.charged) && d.workers[i].system.spec == c.workers[i].system.spec
    ensures Members(d, j)
  {
    hide Member, Kept;
    forall i' | 0 <= i' < |d.workers| ensures Member(d.workers[i'], d.progress.scopes, j, d.charged) {
      if i' != i {
        MemberFrame(d.workers[i'], c.progress.scopes, d.progress.scopes, j, c.charged, d.charged);
      }
    }
  }

  lemma StepKeepsWorkers(c: Company, j: nat, a: Act)
    requires a.Plan? || a.worker >= |c.workers| || (a.move.AnswerPermit? && !MayAsk(c, c.workers[a.worker]))
    ensures Step(c, j, a).workers == c.workers && (a.Work? ==> Step(c, j, a).progress == c.progress)
    ensures c.charged <= Step(c, j, a).charged
  {
    hide Keys, Asked, Next, Answer, Progress.Step;
  }

  lemma StepKeeps(c: Company, j: nat, a: Act)
    requires LifeInv(c, j)
    ensures LifeInv(Step(c, j, a), j)
  {
    hide Step, Books, Member, Members, Kept;
    var d := Step(c, j, a);
    if a.Plan? {
      StepKeepsWorkers(c, j, a);
      PlanActKeepsBooks(c, j, a.op);
      MembersFrame(c, d, j, |c.workers|);
    } else if a.worker < |c.workers| && a.move.AnswerPermit? && MayAsk(c, c.workers[a.worker]) {
      MemberOf(c, j, a.worker);
      AnswerKeepsBooks(c, j, a.worker, a.move.terms, a.now);
      AnswerKeepsMember(c, j, a.worker, a.move.terms, a.now);
      ChargedGrows(c, j, a);
      MembersFrame(c, d, j, a.worker);
    } else if a.worker < |c.workers| && !a.move.AnswerPermit? {
      MemberOf(c, j, a.worker);
      WorkKeepsBooks(c, j, a.worker, a.move, a.now);
      WorkKeepsMember(c, j, a.worker, a.move, a.now);
      ChargedGrows(c, j, a);
      MembersFrame(c, d, j, a.worker);
    } else {
      StepKeepsWorkers(c, j, a);
      IdleKeepsBooks(c, j, a);
      MembersFrame(c, d, j, |c.workers|);
    }
  }

  lemma ChargedGrows(c: Company, j: nat, a: Act)
    ensures c.charged <= Step(c, j, a).charged
  {
    hide Keys, Asked, Acted;
  }

  lemma MemberOf(c: Company, j: nat, i: nat)
    requires Members(c, j) && i < |c.workers|
    ensures Member(c.workers[i], c.progress.scopes, j, c.charged)
  {
    hide Member;
  }

  lemma PlanActKeepsBooks(c: Company, j: nat, op: Progress.Op)
    requires Books(c, j)
    ensures
      var d := Step(c, j, Plan(op));
      Books(d, j) && Kept(c.progress.scopes, d.progress.scopes)
  {
    hide Progress.Step, Progress.Inv, Below, Kept, Keys, Asked, Next, Answer;
    if op.ModelOp? {
      assert c.charged + Keys(c.progress, j) == c.charged;
      SameScopes(c.progress);
    } else {
      PlanKeepsBooks(c, j, op);
    }
  }

  lemma IdleKeepsBooks(c: Company, j: nat, a: Act)
    requires Books(c, j) && a.Work?
    requires a.worker >= |c.workers| || (a.move.AnswerPermit? && !MayAsk(c, c.workers[a.worker]))
    ensures Books(Step(c, j, a), j) && Kept(c.progress.scopes, Step(c, j, a).progress.scopes)
  {
    hide Progress.Inv, Below, Kept, Keys, Asked, Next, Answer;
    assert c.charged + Keys(c.progress, j) == c.charged;
    SameScopes(c.progress);
  }

  lemma {:induction false} LifeKeeps(c: Company, j: nat, acts: seq<Act>)
    requires Fresh(c)
    ensures LifeInv(Life(c, j, acts), j)
  {
    hide Step, LifeInv;
    if acts == [] {
      FreshKeeps(c, j);
    } else {
      LifeKeeps(c, j, acts[..|acts| - 1]);
      StepKeeps(Life(c, j, acts[..|acts| - 1]), j, acts[|acts| - 1]);
    }
  }

  lemma FreshKeeps(c: Company, j: nat)
    requires Fresh(c)
    ensures LifeInv(c, j)
  {
    hide Inv;
    forall i | 0 <= i < |c.workers| ensures Member(c.workers[i], c.progress.scopes, j, c.charged) {
      CreatedInv(c.workers[i].system);
    }
  }

  // ---- The allowance of a scope bounds its calls ----

  predicate Of(w: Worker, scopes: seq<Progress.Scope>, j: nat) {
    Progress.ForDispatch(scopes, w.dispatch) == Some(j)
  }

  /** Calls made to the provider by the workers of scope `j`. */
  function CallsMade(workers: seq<Worker>, scopes: seq<Progress.Scope>, j: nat): nat {
    if workers == [] then 0
    else
      var w := workers[|workers| - 1];
      CallsMade(workers[..|workers| - 1], scopes, j) + if Of(w, scopes, j) then |w.system.calls| else 0
  }

  lemma KeysDiffer(s: System, k: nat, n: nat, s': System, k': nat, n': nat)
    requires k < STEP_LIMIT && k' < STEP_LIMIT && (s.spec.attempt != s'.spec.attempt || k != k' || n != n')
    ensures KeyOf(s, k, n) != KeyOf(s', k', n')
  {
    if s.spec.attempt != s'.spec.attempt || k != k' {
      SlotsDiffer(s.spec.attempt, k, s'.spec.attempt, k', STEP_LIMIT);
    }
  }

  /** The keys of the first calls. */
  function KeysOf(s: System, n: nat): (r: set<Progress.OperationKey>)
    requires n <= |s.calls|
    ensures forall key :: key in r <==>
        exists i :: 0 <= i < n && key == KeyOf(s, s.calls[i].step, s.calls[i].transport)
  {
    if n == 0 then {} else KeysOf(s, n - 1) + {KeyOf(s, s.calls[n - 1].step, s.calls[n - 1].transport)}
  }

  lemma StepWithin(s: System, i: nat)
    requires Inv(s) && s.spec.maxSteps <= STEP_LIMIT && i < |s.calls|
    ensures s.calls[i].step < STEP_LIMIT
  {
    hide Ledger.Inv, JournalInv, GrantInv, CallInv, EventInv, PhaseInv, AnswerInv, DeliveryInv, ToolInv, StopInv;
    CallsWithinLimits(s, i);
  }

  lemma CallsDiffer(s: System, i: nat, i': nat)
    requires Inv(s) && i < i' < |s.calls|
    ensures s.calls[i].step != s.calls[i'].step || s.calls[i].transport != s.calls[i'].transport
  {
    hide Ledger.Inv, JournalInv, GrantInv, EventInv, PhaseInv, AnswerInv, DeliveryInv, ToolInv, StopInv, CallOk;
  }

  /** No two calls of an attempt have the same key. */
  lemma {:induction false} KeysAreDistinct(s: System, n: nat)
    requires Inv(s) && s.spec.maxSteps <= STEP_LIMIT && n <= |s.calls|
    ensures |KeysOf(s, n)| == n
  {
    hide Inv, KeyOf;
    if n > 0 {
      KeysAreDistinct(s, n - 1);
      var last := s.calls[n - 1];
      StepWithin(s, n - 1);
      forall i | 0 <= i < n - 1
        ensures KeyOf(s, s.calls[i].step, s.calls[i].transport) != KeyOf(s, last.step, last.transport)
      {
        StepWithin(s, i);
        CallsDiffer(s, i, n - 1);
        KeysDiffer(s, s.calls[i].step, s.calls[i].transport, s, last.step, last.transport);
      }
    }
  }

  /** Distinct attempts have no key in common, so each call takes a charge of its own. */
  lemma {:induction false} EachCallHasACharge(workers: seq<Worker>, scopes: seq<Progress.Scope>, j: nat,
      charged: set<Progress.OperationKey>)
    requires Distinct(workers)
    requires forall i :: 0 <= i < |workers| ==>
        Inv(workers[i].system) && workers[i].system.spec.maxSteps <= STEP_LIMIT
    requires forall i :: 0 <= i < |workers| && Of(workers[i], scopes, j) ==> Called(workers[i].system, charged)
    ensures CallsMade(workers, scopes, j) <= |charged|
  {
    hide Inv, Of, KeyOf;
    if workers != [] {
      var n := |workers| - 1;
      var w := workers[n];
      if Of(w, scopes, j) {
        var s := w.system;
        var mine := KeysOf(s, |s.calls|);
        KeysAreDistinct(s, |s.calls|);
        assert mine <= charged;
        assert |charged - mine| == |charged| - |mine|;
        forall i | 0 <= i < n && Of(workers[i], scopes, j) ensures Called(workers[i].system, charged - mine) {
          OthersCharges(workers[i].system, s, charged);
        }
        EachCallHasACharge(workers[..n], scopes, j, charged - mine);
      } else {
        EachCallHasACharge(workers[..n], scopes, j, charged);
      }
    }
  }

  lemma OthersCharges(s: System, other: System, charged: set<Progress.OperationKey>)
    requires Inv(s) && Inv(other) && s.spec.attempt != other.spec.attempt && Called(s, charged)
    requires s.spec.maxSteps <= STEP_LIMIT && other.spec.maxSteps <= STEP_LIMIT
    ensures Called(s, charged - KeysOf(other, |other.calls|))
  {
    hide Inv, KeyOf;
    forall i | 0 <= i < |s.calls|
      ensures KeyOf(s, s.calls[i].step, s.calls[i].transport) in charged - KeysOf(other, |other.calls|)
    {
      StepWithin(s, i);
      forall i' | 0 <= i' < |other.calls|
        ensures KeyOf(s, s.calls[i].step, s.calls[i].transport)
            != KeyOf(other, other.calls[i'].step, other.calls[i'].transport)
      {
        StepWithin(other, i');
        KeysDiffer(s, s.calls[i].step, s.calls[i].transport, other, other.calls[i'].step, other.calls[i'].transport);
      }
    }
  }

  /** Over any number of attempts, crashes and retries, all workers under one scope together make no more calls to the
      provider than the scope was charged with, in this window and in those the owner closed; and the charges of the
      present window stay below its allowance. */
  lemma CallsStayBelowTheAllowance(c: Company, j: nat, acts: seq<Act>)
    requires Fresh(c) && j < |Life(c, j, acts).progress.scopes|
    ensures
      var d := Life(c, j, acts);
      var scope := d.progress.scopes[j];
      && CallsMade(d.workers, d.progress.scopes, j) <= d.closed + scope.modelCalls
      && scope.modelCalls < scope.maxModelCalls
  {
    hide Inv, KeyOf, Progress.Inv, Keys, Step;
    LifeKeeps(c, j, acts);
    var d := Life(c, j, acts);
    forall i | 0 <= i < |d.workers| ensures Member(d.workers[i], d.progress.scopes, j, d.charged) {
    }
    EachCallHasACharge(d.workers, d.progress.scopes, j, d.charged);
  }

  /** Without a reset by the owner the calls of a scope stay below its allowance. */
  lemma {:induction false} NothingClosedWithoutReset(c: Company, j: nat, acts: seq<Act>)
    requires Fresh(c) && forall i :: 0 <= i < |acts| ==> !(acts[i].Plan? && acts[i].op.ResetOp?)
    ensures Life(c, j, acts).closed == 0
    ensures j < |Life(c, j, acts).progress.scopes| ==>
      var d := Life(c, j, acts);
      CallsMade(d.workers, d.progress.scopes, j) < d.progress.scopes[j].maxModelCalls
  {
    hide CallsMade, Acted;
    if acts != [] { NothingClosedWithoutReset(c, j, acts[..|acts| - 1]); }
    if j < |Life(c, j, acts).progress.scopes| { CallsStayBelowTheAllowance(c, j, acts); }
  }

  /** What the first half of a charge does to the scope of a dispatch, for a key it does not have. */
  lemma FirstCharge(p: Progress.State, d: nat, node: nat, attempt: nat, operation: nat, n: nat, now: nat, x: nat)
    requires Progress.ForDispatch(p.scopes, d) == Some(x)
    requires Progress.ModelKey(operation, n) !in p.scopes[x].operations
    requires Progress.BeforeModel(p, d, Some(node), attempt, operation, n, now).Ok?
    ensures
      var b, s := Progress.BeforeModel(p, d, Some(node), attempt, operation, n, now).value, p.scopes[x];
      && Progress.AvailableRefusal(s, now).None? && Progress.ForDispatch(b.scopes, d) == Some(x)
      && b.scopes[x] == s.(operations := s.operations + [Progress.ModelKey(operation, n)],
          modelCalls := s.modelCalls + 1)
  {
    hide Progress.TouchGap, Progress.RecordAttempt, Progress.AvailableRefusal;
    var b := Progress.BeforeModel(p, d, Some(node), attempt, operation, n, now).value;
    Progress.SameDispatches(p.scopes, b.scopes, d);
  }

  /** A new call is charged exactly while one more would still be left: of an allowance of `n` calls the last is never
      granted, because the window is opened, with the same check, after the charge. */
  lemma NewCallIsChargedExactlyBelowTheLast(p: Progress.State, w: Worker, now: nat, x: nat)
    requires w.system.rpc.AskPermit? && w.system.rpc.step in w.system.j.models
    requires Progress.ForDispatch(p.scopes, w.dispatch) == Some(x)
    requires AskedKey(w.system) !in p.scopes[x].operations
    requires
      var k := w.system.rpc.step;
      Progress.BeforeModel(p, w.dispatch, Some(w.node), w.system.spec.attempt, Operation(w.system.spec.attempt, k),
          w.system.j.models[k].attempts + 1, now).Ok?
    ensures
      var s := p.scopes[x];
      Charge(p, w, now).Ok? <==> s.modelCalls + 1 < s.maxModelCalls && (s.startedAt.None? ==> s.windowMs > 0)
  {
    hide Progress.BeforeModel, Progress.ForDispatch, Operation;
    var s, k := w.system, w.system.rpc.step;
    FirstCharge(p, w.dispatch, w.node, s.spec.attempt, Operation(s.spec.attempt, k), s.j.models[k].attempts + 1, now,
        x);
  }

  // ---- Superseded attempts ----

  ghost predicate Spent(s: System, t: System) {
    t.c.grants == s.c.grants && t.c.attempt == s.c.attempt
  }

  lemma {:induction false} DrainSpends(spec: Spec, c: Controller)
    requires !Active(c.attempt)
    ensures Drain(spec, c).Ok? ==> Drain(spec, c).value.grants == c.grants && Drain(spec, c).value.attempt == c.attempt
    decreases Buffered(c)
  {
    hide Ledger.Respond, Ledger.Fail;
    var n := c.lastSequence + 1;
    if n in c.inbox {
      var r := ApplyEvent(spec, c, c.inbox[n]);
      if r.Ok? {
        var d := r.value.(lastSequence := n, applied := r.value.applied + [c.inbox[n]]);
        assert n in Buffered(c) && n !in Buffered(d) && Buffered(d) <= Buffered(c);
        DrainSpends(spec, d);
      }
    }
  }

  lemma DeliverSpends(s: System, n: nat)
    requires !Active(s.c.attempt)
    ensures Spent(s, OnDeliver(s, n))
  {
    if OnDeliver(s, n) != s {
      DrainSpends(s.spec, s.c.(inbox := s.c.inbox[n := s.j.events[n - 1]]));
    }
  }

  lemma RecoveryMovesSpend(s: System, m: Move)
    requires !Active(s.c.attempt) && RecoveryMove(m)
    ensures Spent(s, Next(s, m))
  {
    hide ModelNext, ToolNext, ProcessNext, LeavingNext, ControllerNext, Ledger.Fail, MayRecover, Unmarked, Decide,
        OnDeliver;
    if m.Conclude? { DecideSpends(s, m.reading); }
  }

  lemma DecideSpends(s: System, reading: Reading)
    requires !Active(s.c.attempt)
    ensures var d := Decide(s.spec, s.j, s.c, reading); d.grants == s.c.grants && d.attempt == s.c.attempt
  {
    hide Diagnosis;
  }

  lemma CompanyMovesSpend(s: System, m: Move)
    requires !Active(s.c.attempt) && !ModelMove(m) && !ToolMove(m) && !LeavingMove(m) && !RecoveryMove(m) && !m.Deliver?
    ensures Spent(s, Next(s, m))
  {
    hide ModelNext, ToolNext, ProcessNext, LeavingNext, RecoveryNext, Ledger.Step, Ledger.Prepare, Ledger.Restart;
    if m.AnswerPermit? && s.rpc.AskPermit? {
      EndedIsRefused(s, m.terms);
    }
  }

  lemma EndedIsRefused(s: System, t: Terms)
    requires !Active(s.c.attempt) && s.rpc.AskPermit?
    ensures Authorize(s.spec, s.c, s.rpc.step, s.rpc.history, t).Err?
  {
  }

  /** An attempt that is over stays so, and its worker, should it still run, is granted nothing more. */
  lemma {:induction false} EndedAttemptGetsNoGrant(s: System, moves: seq<Move>)
    requires !Active(s.c.attempt)
    ensures Spent(s, Run(s, moves))
  {
    hide Next;
    if moves != [] {
      var t, m := Run(s, moves[..|moves| - 1]), moves[|moves| - 1];
      EndedAttemptGetsNoGrant(s, moves[..|moves| - 1]);
      if ModelMove(m) || ToolMove(m) || LeavingMove(m) {
        WorkerMovesKeepController(t, m);
      } else if RecoveryMove(m) {
        RecoveryMovesSpend(t, m);
      } else if m.Deliver? {
        NextIsDelivery(t, m.sequence);
        DeliverSpends(t, m.sequence);
      } else {
        CompanyMovesSpend(t, m);
      }
    }
  }

  lemma NextIsDelivery(s: System, n: nat)
    ensures Next(s, Deliver(n)) == OnDeliver(s, n)
  {
    hide ModelNext, ToolNext, ProcessNext, LeavingNext, ControllerNext, OnDeliver;
  }

  /** Once a task has a newer attempt, the older one is granted nothing more, whatever its worker still does: in every
      run of claims and receipts the older attempt is over, and stays as it is. */
  lemma SupersededAttemptGetsNoGrant(ops: seq<Execution.Op>, more: seq<Execution.Op>, i: nat, i': nat, s: System,
      moves: seq<Move>)
    requires i < i' < |Execution.Run(Execution.INITIAL, ops).attempts|
    requires Execution.Run(Execution.INITIAL, ops).attempts[i].task
        == Execution.Run(Execution.INITIAL, ops).attempts[i'].task
    requires s.c.attempt == Execution.Run(Execution.INITIAL, ops).attempts[i].state
    ensures Run(s, moves).c.grants == s.c.grants
    ensures i < |Execution.Run(Execution.INITIAL, ops + more).attempts|
        && Run(s, moves).c.attempt == Execution.Run(Execution.INITIAL, ops + more).attempts[i].state
  {
    Execution.RunKeepsInv(ops);
    Execution.RunEvolves(ops, more);
    EndedAttemptGetsNoGrant(s, moves);
  }
}
