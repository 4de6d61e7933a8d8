/** The other half of safety: a call that nobody disturbs and whose steps are in time is granted, sent
    once, and completed within its reservation. */
module UndisturbedCall {
  import opened Outcomes
  import opened Sorting
  import opened Sums
  import opened CostAllocation
  import opened AutoReviewPolicy
  import opened ValidationProtocol
  import opened CallRows
  import opened ValidationSystem
  import opened ProtocolSafety

  /** What has to be in place for a first claim. */
  ghost predicate Claimable(d: Durable, r: Request, e: Env) {
    && ReservationValid(r.terms) && e.runtimeKey == Some(r.terms.keyIdentity) && e.sourcesOk && e.rolloutOk && e.guards.Some?
    && d.safety.Some? && SafetyMatches(d.safety.value, e.codePolicy) && d.safety.value.version == r.terms.safetyVersion
    && r.key.workflow in d.workflows && !d.workflows[r.key.workflow].cancelled
    && d.workflows[r.key.workflow].terms == TermsOfWorkflow(r.terms)
    && r.key !in d.calls && WithinBudget(d, d.workflows[r.key.workflow], r, e.extractionSpend)
  }

  function ContextOf(d: Durable, r: Request, e: Env): Context { Context(d.nextId, r.key, e.freshToken) }

  function AdmissionOf(d: Durable, r: Request, e: Env): Admission
    requires e.guards.Some?
  {
    var t := r.terms;
    Admission(ContextOf(d, r, e), t.contentHmac, t.characters, t.framedIn, t.maxOut, t.reserved.cost, t.keyIdentity, t.timing, e.guards.value)
  }

  function InvocationOf(r: Request): Invocation {
    Invocation(r.terms.contentHmac, r.terms.characters, r.terms.framedIn, r.terms.maxOut)
  }

  /** The row after the claim, and after the start at `now`. */
  function Fresh(d: Durable, r: Request, e: Env): Call { NewCall(d.nextId, r.terms, e) }

  function Started(d: Durable, r: Request, e: Env, now: int): Call {
    Fresh(d, r, e).(attempts := 1, startedAt := Some(now), leaseExpires := now + r.terms.timing.lease)
  }

  function WithRow(d: Durable, r: Request, c: Call): Durable { d.(calls := d.calls[r.key := c], nextId := d.nextId + 1) }

  lemma ClaimSucceeds(d: Durable, r: Request, e: Env)
    requires Claimable(d, r, e)
    ensures ClaimTx(d, r, e) == (WithRow(d, r, Fresh(d, r, e)),
                                 Ok(ClaimOutcome(d.nextId, ClaimGranted(e.freshToken, e.now + r.terms.timing.lease))))
  {
    hide ReservationValid, WithinBudget, NewChildren;
  }

  function TicketOf(d: Durable, r: Request, e: Env, now: int): Ticket
    requires e.guards.Some?
  {
    Ticket(AttemptId(e.freshToken), ContextOf(d, r, e), r.terms.timing.sendWindow, now + r.terms.timing.lease, e.guards.value)
  }

  lemma StartSucceeds(d: Durable, r: Request, e: Env, now: int)
    requires Claimable(d, r, e) && now < e.now + r.terms.timing.lease
    ensures StartTx(WithRow(d, r, Fresh(d, r, e)), AdmissionOf(d, r, e), e.(now := now))
            == (WithRow(d, r, Started(d, r, e, now)), Ok(TicketOf(d, r, e, now)))
  {
    hide ReservationValid, WithinBudget, NewChildren, TerminalFailure, AttemptId;
    var before := WithRow(d, r, Fresh(d, r, e));
    assert before.calls[r.key := Started(d, r, e, now)] == d.calls[r.key := Started(d, r, e, now)];
  }

  lemma DispatchCheckPasses(d: Durable, r: Request, e: Env, started: int, now: int, v: Volatile, g: Grant)
    requires Claimable(d, r, e) && now < started + r.terms.timing.lease
    requires g.context == ContextOf(d, r, e) && d.nextId in v.guards && v.guards[d.nextId] == e.guards.value
    ensures DispatchCheck(WithRow(d, r, Started(d, r, e, started)), v, g, InvocationOf(r), e.(now := now)) == Ok(true)
  {
    hide ReservationValid, WithinBudget, NewChildren;
  }

  // ---- Completion within the reservation

  lemma CostIsMonotone(i: nat, o: nat, a: nat, b: nat, p: Prices)
    requires i <= a && o <= b
    ensures TokenCost(i, o, p).Ok? && TokenCost(a, b, p).Ok? && TokenCost(i, o, p).value <= TokenCost(a, b, p).value
  {
    assert ExactCost(i, o, p) <= ExactCost(a, b, p) by {
      assert i * p.input <= a * p.input && o * p.output <= b * p.output;
    }
  }

  lemma SplitSucceeds(t: Terms, children: seq<Child>, i: nat, o: nat)
    requires children != []
    ensures ChildCharges(t, children, Charge(i, o, TokenCost(i, o, t.prices).value)).Ok?
  {
    ExactCostSplit(i, o, |children|, t.prices, KeysOf(children));
  }

  lemma OtherCallsOwe(d: Durable, r: Request, c: Call)
    requires r.key !in d.calls
    ensures ObligationAfter(WithRow(d, r, c).calls, r.key, 0) == Obligation(d.calls, r.key.workflow)
  {
    var calls := WithRow(d, r, c).calls;
    assert CallsOf(calls, r.key.workflow) - {r.key} == CallsOf(d.calls, r.key.workflow);
    SumOverSame(CallsOf(d.calls, r.key.workflow), OwedIn(calls), OwedIn(d.calls));
  }

  lemma ReservationIsEnough(d: Durable, r: Request, e: Env, c: Call, i: nat, o: nat)
    requires Claimable(d, r, e) && i <= r.terms.framedIn && o <= r.terms.maxOut
    requires c.terms == SortedTerms(r.terms)
    ensures var d' := WithRow(d, r, c);
            !Overruns(d', d'.workflows[r.key.workflow], r.key, c, Charge(i, o, TokenCost(i, o, r.terms.prices).value), e.extractionSpend)
  {
    CostIsMonotone(i, o, r.terms.framedIn, r.terms.maxOut, r.terms.prices);
    OtherCallsOwe(d, r, c);
  }

  /** A completion of the call's own candidates, decided, within the reserved tokens. */
  predicate CompletesPlan(r: Request, ctx: Context, done: Completion) {
    && done.context == ctx && 0 <= done.inTokens <= r.terms.framedIn && 0 <= done.outTokens <= r.terms.maxOut
    && CandidatesOf(SortBy(CompletionLe, done.candidates)) == SortBy(CandidateLe, r.terms.candidates)
    && forall i :: 0 <= i < |done.candidates| ==> done.candidates[i].reasons != []
  }

  lemma ChildrenAreTheCandidates(d: Durable, r: Request, e: Env)
    requires ReservationValid(r.terms)
    ensures ChildCandidates(Fresh(d, r, e).children) == SortBy(CandidateLe, r.terms.candidates) && Fresh(d, r, e).children != []
  {
    hide SortBy, CandidateLe;
  }

  lemma DecidedInOrder(candidates: seq<CandidateCompletion>)
    requires forall i :: 0 <= i < |candidates| ==> candidates[i].reasons != []
    ensures forall i :: 0 <= i < |candidates| ==> SortBy(CompletionLe, candidates)[i].reasons != []
  {
    hide CompletionLe;
    var ordered := SortBy(CompletionLe, candidates);
    forall i | 0 <= i < |candidates| ensures ordered[i].reasons != [] {
      assert ordered[i] in multiset(candidates);
    }
  }

  lemma PricingSucceeds(d: Durable, r: Request, e: Env, started: int, now: int, done: Completion)
    requires Claimable(d, r, e) && now < started + r.terms.timing.lease && CompletesPlan(r, ContextOf(d, r, e), done)
    ensures var priced := PriceCompletion(Started(d, r, e, started), done, now);
            && priced.Ok? && priced.value.ordered == SortBy(CompletionLe, done.candidates)
            && priced.value.charge == Charge(done.inTokens, done.outTokens, TokenCost(done.inTokens, done.outTokens, r.terms.prices).value)
  {
    ChildrenAreTheCandidates(d, r, e);
    var c := Started(d, r, e, started);
    SplitSucceeds(c.terms, c.children, done.inTokens, done.outTokens);
    hide SortBy, ChildCharges, WithinBudget, CompletionLe, CandidateLe, NewChildren;
  }

  lemma ChargedSucceeds(d: Durable, v: Volatile, ctx: Context, c: Call, ordered: seq<CandidateCompletion>, charge: Charge,
                        charges: seq<Charge>, env: Env)
    requires d.safety.Some? && ctx.key.workflow in d.workflows && |ordered| == |c.children| == |charges|
    requires !Overruns(d, d.workflows[ctx.key.workflow], ctx.key, c, charge, env.extractionSpend)
    requires !d.workflows[ctx.key.workflow].cancelled && GuardsHold(d, v, c, env)
    requires forall i :: 0 <= i < |ordered| ==> ordered[i].reasons != []
    ensures var (after, _, p) := CompleteCharged(d, v, ctx, c, ordered, charge, charges, env);
            && p.Ok? && |p.value| == |c.children|
            && ctx.key in after.calls && after.calls[ctx.key].status == Completed && after.calls[ctx.key].overrun == c.overrun
            && after.calls[ctx.key].charged == Some(charge)
            && after.safety == d.safety && after.events == d.events
  {
    hide Overruns, GuardsHold, TerminalFailure;
  }

  lemma GuardsStillHold(d: Durable, r: Request, e: Env, started: int, now: int, v: Volatile)
    requires Claimable(d, r, e) && d.nextId in v.guards && v.guards[d.nextId] == e.guards.value
    ensures var before := WithRow(d, r, Started(d, r, e, started));
            GuardsHold(before, v, Started(d, r, e, started), e.(now := now))
  {
    hide ReservationValid, WithinBudget, NewChildren;
  }

  lemma CompletionSucceeds(d: Durable, r: Request, e: Env, started: int, now: int, v: Volatile, done: Completion)
    requires Claimable(d, r, e) && now < started + r.terms.timing.lease && CompletesPlan(r, ContextOf(d, r, e), done)
    requires d.nextId in v.dispatched && d.nextId in v.guards && v.guards[d.nextId] == e.guards.value
    ensures var before := WithRow(d, r, Started(d, r, e, started));
            var (after, _, p) := CompleteTx(before, v, ContextOf(d, r, e), done, e.(now := now));
            && p.Ok? && |p.value| == |Fresh(d, r, e).children|
            && r.key in after.calls && after.calls[r.key].status == Completed && !after.calls[r.key].overrun
            && after.calls[r.key].charged.Some? && after.calls[r.key].charged.value.cost <= r.terms.reserved.cost
            && after.safety == d.safety && after.events == d.events
  {
    var c := Started(d, r, e, started);
    var before := WithRow(d, r, c);
    var ctx := ContextOf(d, r, e);
    PricingSucceeds(d, r, e, started, now, done);
    var priced := PriceCompletion(c, done, now).value;
    ReservationIsEnough(d, r, e, c, done.inTokens, done.outTokens);
    CostIsMonotone(done.inTokens, done.outTokens, r.terms.framedIn, r.terms.maxOut, r.terms.prices);
    DecidedInOrder(done.candidates);
    GuardsStillHold(d, r, e, started, now, v);
    assert CallOf(before, ctx) == Some(c);
    assert before.safety.Some? && ctx.key.workflow in before.workflows && !before.workflows[ctx.key.workflow].cancelled;
    hide SortBy, PriceCompletion, Overruns, WithinBudget, TokenCost, NewChildren, GuardsHold, CompleteCharged, CallOf;
    ChargedSucceeds(before, v, ctx, c, priced.ordered, priced.charge, priced.charges, e.(now := now));
  }

  // ---- The whole run

  /** When the steps happen and who takes them. */
  datatype Schedule = Schedule(process: nat, thread: nat, startAt: int, minted: int, checkAt: int, sent: int, completeAt: int)

  /** Each step is in time: the start within the claimed lease, check and completion within the
      started one, the send within its window. */
  predicate InTime(r: Request, e: Env, at: Schedule) {
    var lease := r.terms.timing.lease;
    at.startAt < e.now + lease && at.checkAt < at.startAt + lease && at.completeAt < at.startAt + lease
    && at.sent < at.minted + r.terms.timing.sendWindow
  }

  function AttemptSteps(s: State, r: Request, e: Env, at: Schedule): seq<Op>
    requires e.guards.Some?
  {
    [Claim(r, e),
     Start(at.process, at.thread, AdmissionOf(s.d, r, e), e.(now := at.startAt)),
     Mint(at.thread, at.minted),
     CheckDispatch(at.process, at.thread, AttemptId(e.freshToken), |s.permits|, InvocationOf(r), e.(now := at.checkAt)),
     Send(at.thread, at.sent)]
  }

  ghost function Granted(s: State, r: Request, e: Env, at: Schedule): State
    requires e.guards.Some?
  {
    var ops := AttemptSteps(s, r, e, at);
    Apply(Apply(Apply(s, ops[0]), ops[1]), ops[2])
  }

  lemma GrantIsMinted(s: State, r: Request, e: Env, at: Schedule)
    requires Claimable(s.d, r, e) && InTime(r, e, at) && at.thread !in s.threads
    ensures var g := Granted(s, r, e, at);
            && g.d == WithRow(s.d, r, Started(s.d, r, e, at.startAt)) && g.threads == s.threads && g.invoked == s.invoked
            && g.permits == s.permits + [Permit(AttemptId(e.freshToken), at.minted + r.terms.timing.sendWindow, false, false, r.key)]
            && at.process in g.processes
            && AttemptId(e.freshToken) in g.processes[at.process].active
            && g.processes[at.process].active[AttemptId(e.freshToken)] == Grant(|s.permits|, ContextOf(s.d, r, e))
            && s.d.nextId in g.processes[at.process].guards && g.processes[at.process].guards[s.d.nextId] == e.guards.value
  {
    hide ClaimTx, StartTx, AttemptId, Claimable, NewCall;
    assert e.guards.Some? by { GuardsArePresent(s.d, r, e); }
    ClaimSucceeds(s.d, r, e);
    StartSucceeds(s.d, r, e, at.startAt);
    var ops := AttemptSteps(s, r, e, at);
    var s1 := Apply(s, ops[0]);
    assert s1 == s.(d := WithRow(s.d, r, Fresh(s.d, r, e)));
    var s2 := Apply(s1, ops[1]);
    assert s2 == s.(d := WithRow(s.d, r, Started(s.d, r, e, at.startAt)),
                    threads := s.threads[at.thread := Minting(at.process, TicketOf(s.d, r, e, at.startAt))]);
    assert s2.threads - {at.thread} == s.threads;
  }

  lemma GuardsArePresent(d: Durable, r: Request, e: Env)
    requires Claimable(d, r, e)
    ensures e.guards.Some?
  {}

  /** Undisturbed, the call is sent exactly once more than before, and completing it then succeeds. */
  lemma UndisturbedCallCompletes(s: State, r: Request, e: Env, at: Schedule, done: Completion)
    requires Claimable(s.d, r, e) && InTime(r, e, at) && at.thread !in s.threads
    requires CompletesPlan(r, ContextOf(s.d, r, e), done)
    ensures var g := Granted(s, r, e, at);
            var ops := AttemptSteps(s, r, e, at);
            var sent := Apply(Apply(g, ops[3]), ops[4]);
            var end := Apply(sent, Complete(at.process, ContextOf(s.d, r, e), done, e.(now := at.completeAt)));
            && sent.invoked == s.invoked + [r.key]
            && end.invoked == sent.invoked
            && r.key in end.d.calls && end.d.calls[r.key].status == Completed && !end.d.calls[r.key].overrun
            && end.d.calls[r.key].charged.Some? && end.d.calls[r.key].charged.value.cost <= r.terms.reserved.cost
            && end.d.safety == s.d.safety
  {
    hide ClaimTx, StartTx, CompleteTx, DispatchCheck, AttemptId, Claimable, NewCall, Granted, WithRow, CompletesPlan, InTime;
    GuardsArePresent(s.d, r, e);
    GrantIsMinted(s, r, e, at);
    var g := Granted(s, r, e, at);
    var ops := AttemptSteps(s, r, e, at);
    var grant := Grant(|s.permits|, ContextOf(s.d, r, e));
    assert at.checkAt < at.startAt + r.terms.timing.lease && at.completeAt < at.startAt + r.terms.timing.lease
      && at.sent < at.minted + r.terms.timing.sendWindow by { TimesAreKept(r, e, at); }
    DispatchCheckPasses(s.d, r, e, at.startAt, at.checkAt, g.processes[at.process], grant);
    var checked := Apply(g, ops[3]);
    assert checked == g.(threads := g.threads[at.thread := Dispatching(at.process, AttemptId(e.freshToken), |s.permits|, ContextOf(s.d, r, e))]);
    var sent := Apply(checked, ops[4]);
    assert sent.invoked == s.invoked + [r.key] && sent.d == g.d;
    var v := VolatileOf(sent, at.process);
    assert s.d.nextId in v.dispatched && s.d.nextId in v.guards && v.guards[s.d.nextId] == e.guards.value;
    CompletionSucceeds(s.d, r, e, at.startAt, at.completeAt, v, done);
  }

  lemma TimesAreKept(r: Request, e: Env, at: Schedule)
    requires InTime(r, e, at)
    ensures at.checkAt < at.startAt + r.terms.timing.lease && at.completeAt < at.startAt + r.terms.timing.lease
            && at.sent < at.minted + r.terms.timing.sendWindow
  {}

  /** After the provider was authorized and a workflow launched, its first affordable call is claimable. */
  lemma FirstCallIsClaimable(r: Request, e: Env, row: Workflow)
    requires ReservationValid(r.terms) && r.terms.safetyVersion == 1
    requires e.runtimeKey == Some(r.terms.keyIdentity) && e.sourcesOk && e.rolloutOk && e.guards.Some?
    requires !row.cancelled && row.terms == TermsOfWorkflow(r.terms)
    requires 1 <= r.terms.maxBatches && |r.terms.candidates| <= r.terms.maxCandidates
    requires r.terms.reserved.cost <= ValidationCeiling(row) && e.extractionSpend + r.terms.reserved.cost <= TotalCeiling(row)
    ensures Claimable(Apply(Apply(INITIAL, AuthorizeInitial(e.codePolicy, e)), Launch(r.key.workflow, row)).d, r, e)
    ensures Apply(Apply(INITIAL, AuthorizeInitial(e.codePolicy, e)), Launch(r.key.workflow, row)).threads == map[]
  {
    hide ReservationValid, ValidationCeiling, TotalCeiling;
    var d := Apply(Apply(INITIAL, AuthorizeInitial(e.codePolicy, e)), Launch(r.key.workflow, row)).d;
    assert d.calls == map[] && CallsOf(d.calls, r.key.workflow) == {};
  }

  // ---- The operator's exception, reached

  lemma ReachedOneMore(ops: seq<Op>, op: Op)
    ensures Reached(ops + [op]) == Apply(Reached(ops), op)
  {
    hide Apply;
    assert (ops + [op])[..|ops|] == ops;
  }

  function SetUp(r: Request, e: Env, row: Workflow): seq<Op> {
    [] + [AuthorizeInitial(e.codePolicy, e)] + [Launch(r.key.workflow, row)]
  }

  /** Authorize, launch, claim, start - and then an operator cancels the workflow's calls. */
  ghost function RecoveredRun(r: Request, e: Env, row: Workflow, startAt: int, now: int): seq<Op>
    requires e.guards.Some?
  {
    SetUp(r, e, row) + [Claim(r, e)] + [Start(0, 0, AdmissionOf(Reached(SetUp(r, e, row)).d, r, e), e.(now := startAt))]
    + [OperatorRecover(r.key, now, true)]
  }

  lemma RecoveredAttemptDoesNotConserve(r: Request, e: Env, row: Workflow, startAt: int, now: int)
    requires e.guards.Some? && Claimable(Reached(SetUp(r, e, row)).d, r, e) && 0 !in Reached(SetUp(r, e, row)).threads
    requires startAt < e.now + r.terms.timing.lease
    ensures var d := Reached(RecoveredRun(r, e, row, startAt, now)).d;
            r.key in d.calls && d.calls[r.key].status == Failed && d.calls[r.key].attempts == 1 && !Conserves(d.calls[r.key])
  {
    hide Apply, Claimable, Conserves, RowOk, SetUp, ClaimTx, StartTx, NewCall;
    var s := Reached(SetUp(r, e, row));
    var claim, start := Claim(r, e), Start(0, 0, AdmissionOf(s.d, r, e), e.(now := startAt));
    ReachedOneMore(SetUp(r, e, row), claim);
    ReachedOneMore(SetUp(r, e, row) + [claim], start);
    ReachedOneMore(SetUp(r, e, row) + [claim] + [start], OperatorRecover(r.key, now, true));
    ClaimAndStart(s, r, e, startAt);
    var before := Reached(SetUp(r, e, row) + [claim] + [start]);
    RunKeepsOneAttempt(SetUp(r, e, row) + [claim] + [start]);
    StartedIsOpen(s.d, r, e, startAt);
    RecoveryOfStarted(before, r.key, now);
  }

  lemma StartedIsOpen(d: Durable, r: Request, e: Env, now: int)
    ensures Started(d, r, e, now).status == Claimed && Started(d, r, e, now).attempts == 1
  {}

  lemma ClaimAndStart(s: State, r: Request, e: Env, startAt: int)
    requires Claimable(s.d, r, e) && startAt < e.now + r.terms.timing.lease && e.guards.Some? && 0 !in s.threads
    ensures Apply(Apply(s, Claim(r, e)), Start(0, 0, AdmissionOf(s.d, r, e), e.(now := startAt))).d
            == WithRow(s.d, r, Started(s.d, r, e, startAt))
  {
    hide ClaimTx, StartTx, Claimable, NewCall, AttemptId;
    ClaimSucceeds(s.d, r, e);
    StartSucceeds(s.d, r, e, startAt);
    assert Apply(s, Claim(r, e)).d == WithRow(s.d, r, Fresh(s.d, r, e));
  }

  lemma RecoveryOfStarted(s: State, k: CallKey, now: int)
    requires RowsOk(s.d) && k in s.d.calls && s.d.calls[k].status == Claimed && s.d.calls[k].attempts == 1
    ensures var d := Apply(s, OperatorRecover(k, now, true)).d;
            k in d.calls && d.calls[k].status == Failed && d.calls[k].attempts == 1 && !Conserves(d.calls[k])
  {
    hide Conserves, RowOk, ZeroedChildren;
    assert RowOkAt(s.d, k);
    AdminRecoverEffect(s.d, k, now, true);
  }

  const REQUEST := Request(CallKey("w", "b"),
    Terms([Candidate(1, "k")], "content", 10, 100, Charge(100, 10, 320), 6_000, 10, Prices(2_000_000, 12_000_000), 1, "key",
          Timing(60, 5, 120, 30), Ceilings(0, 1_000, 1_000), 2, 5))
  const ENV := Env(0, 1, Some("key"), true, true, Some(NO_GUARDS), 0, "token")
  const WORKFLOW := Workflow(false, TermsOfWorkflow(REQUEST.terms), 1_000)

  /** A reachable call whose children do not add up to its charge. */
  lemma OperatorRecoveryLosesTheSplit()
    ensures exists ops: seq<Op>, k :: k in Reached(ops).d.calls && !Conserves(Reached(ops).d.calls[k])
  {
    hide Apply, Conserves, Claimable;
    assert TokenCost(100, 10, Prices(2_000_000, 12_000_000)) == Ok(320);
    assert ReservationValid(REQUEST.terms);
    FirstCallIsClaimable(REQUEST, ENV, WORKFLOW);
    ReachedOneMore([], AuthorizeInitial(ENV.codePolicy, ENV));
    ReachedOneMore([] + [AuthorizeInitial(ENV.codePolicy, ENV)], Launch(REQUEST.key.workflow, WORKFLOW));
    RecoveredAttemptDoesNotConserve(REQUEST, ENV, WORKFLOW, 1, 2);
    var ops := RecoveredRun(REQUEST, ENV, WORKFLOW, 1, 2);
    assert REQUEST.key in Reached(ops).d.calls;
  }
}
