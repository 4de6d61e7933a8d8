/** The validation-call transactions, as functions on the rows they read and write.

    A transaction is atomic: it returns the rows it leaves behind. What it reads from elsewhere
    (database clock, runtime key, rollout authority, sources and permissions, extraction spending,
    a fresh lease token) arrives in an `Env` that no theorem restricts. */
module ValidationProtocol {
  import opened Outcomes
  import opened Sorting
  import opened Sums
  import opened CostAllocation
  import opened AutoReviewPolicy

  const MAX_VALIDATION_COST := 97_728   // micro-USD, whole deployment ceiling per workflow
  const MAX_BATCH_COST := 48_864
  const MAX_INPUT_CHARS := 12_000

  type WorkflowId = string

  /** The unique key of a call row: workflow thread and batch fingerprint. */
  datatype CallKey = CallKey(workflow: WorkflowId, batch: string)

  datatype Candidate = Candidate(reviewItem: int, key: string)
  datatype Timing = Timing(timeout: nat, sendWindow: nat, lease: nat, grace: nat)
  datatype Ceilings = Ceilings(extraction: nat, validation: nat, total: nat)
  datatype Guards = Guards(permission: string, sources: string)

  const NO_GUARDS := Guards("", "")

  /** Everything a claim fixes; every later read of the row compares against it. */
  datatype Terms = Terms(
    candidates: seq<Candidate>,
    contentHmac: string,
    characters: nat,
    framedIn: nat,
    reserved: Charge,
    maxInput: nat,
    maxOut: nat,
    prices: Prices,
    safetyVersion: nat,
    keyIdentity: string,
    timing: Timing,
    ceilings: Ceilings,
    maxBatches: nat,
    maxCandidates: nat)

  datatype Request = Request(key: CallKey, terms: Terms)

  datatype Status = Claimed | Completed | Failed

  /** What a completed child keeps of its result; the slot is its position among the children. */
  datatype Verdict = Verdict(claims: seq<ClaimResult>, uncertainty: seq<string>, conflicts: seq<string>,
                             decision: Decision, reasons: seq<ReasonCode>)

  datatype Child = Child(candidate: Candidate, status: Status, charge: Charge, reasons: seq<ReasonCode>, verdict: Option<Verdict>)

  datatype Call = Call(
    id: nat,
    terms: Terms,
    status: Status,
    attempts: nat,
    startedAt: Option<int>,
    leaseToken: Option<string>,
    leaseExpires: int,
    charged: Option<Charge>,
    overrun: bool,
    overrunCost: nat,
    terminalAt: Option<int>,
    children: seq<Child>)

  datatype Workflow = Workflow(cancelled: bool, terms: WorkflowTerms, budgetLimit: nat)
  datatype WorkflowTerms = WorkflowTerms(safetyVersion: nat, keyIdentity: string, timing: Timing, ceilings: Ceilings,
                                         prices: Prices, maxInput: nat, maxOut: nat, maxBatches: nat, maxCandidates: nat)

  /** The provider-safety row of the validation provider, and its event log. */
  datatype Safety = Safety(version: nat, policy: nat, open: bool, overruns: nat, lastSequence: nat)
  datatype SafetyEventKind = InitialAuthorized | BudgetOverrun | BreakerCleared
  datatype SafetyEvent = SafetyEvent(sequence: nat, kind: SafetyEventKind, prior: nat, next: nat, priorOpen: bool, nextOpen: bool)

  datatype Durable = Durable(
    calls: map<CallKey, Call>,
    workflows: map<WorkflowId, Workflow>,
    safety: Option<Safety>,
    events: seq<SafetyEvent>,
    nextId: nat)

  datatype Env = Env(
    now: int,
    codePolicy: nat,
    runtimeKey: Option<string>,
    rolloutOk: bool,
    sourcesOk: bool,
    guards: Option<Guards>,
    extractionSpend: nat,
    freshToken: string)

  datatype Context = Context(id: nat, key: CallKey, token: string)

  // ---- Per-process volatile state

  /** A one-shot send permit. */
  datatype Permit = Permit(attempt: string, deadline: int, consumed: bool, invalidated: bool, key: CallKey)
  datatype Grant = Grant(permit: nat, context: Context)
  datatype Volatile = Volatile(active: map<string, Grant>, dispatched: set<nat>, guards: map<nat, Guards>)

  const NO_VOLATILE := Volatile(map[], {}, map[])

  datatype Ticket = Ticket(attempt: string, context: Context, sendWindow: nat, leaseExpires: int, guards: Guards)

  /** The attempt id is the digest of this text; the digest is taken to be injective. */
  function AttemptId(token: string): string {
    token + ":attempt:1"
  }

  // ---- Shared row reads

  predicate CandidateLe(a: Candidate, b: Candidate) {
    StringLe(a.key, b.key)
  }

  function SortedTerms(t: Terms): Terms {
    t.(candidates := SortBy(CandidateLe, t.candidates))
  }

  function CallOf(d: Durable, c: Context): Option<Call> {
    if c.key in d.calls && d.calls[c.key].id == c.id && d.calls[c.key].leaseToken == Some(c.token)
    then Some(d.calls[c.key])
    else None
  }

  function Owed(c: Call): nat {
    if c.status == Claimed || c.charged.None? then c.terms.reserved.cost else c.charged.value.cost
  }

  ghost function CallsOf(calls: map<CallKey, Call>, w: WorkflowId): set<CallKey> {
    set k | k in calls && k.workflow == w
  }

  ghost function OwedIn(calls: map<CallKey, Call>): CallKey -> nat {
    k => if k in calls then Owed(calls[k]) else 0
  }

  ghost function CandidatesIn(calls: map<CallKey, Call>): CallKey -> nat {
    k => if k in calls then |calls[k].terms.candidates| else 0
  }

  /** Charged cost of the workflow's settled calls plus reserved cost of its open ones. */
  ghost function Obligation(calls: map<CallKey, Call>, w: WorkflowId): nat {
    SumOver(CallsOf(calls, w), OwedIn(calls))
  }

  ghost function CandidateTotal(calls: map<CallKey, Call>, w: WorkflowId): nat {
    SumOver(CallsOf(calls, w), CandidatesIn(calls))
  }

  function ValidationCeiling(w: Workflow): nat {
    Min(MAX_VALIDATION_COST, w.terms.ceilings.validation)
  }

  function TotalCeiling(w: Workflow): nat {
    Min(w.terms.ceilings.total, w.budgetLimit)
  }

  predicate SafetyMatches(s: Safety, codePolicy: nat) {
    !s.open && s.policy == codePolicy
  }

  // ---- Claim

  predicate DistinctKeys(candidates: seq<Candidate>) {
    forall i, j :: 0 <= i < j < |candidates| ==> candidates[i].key != candidates[j].key
  }

  /** The reservation arithmetic of the request; identity digests are outside this model. */
  predicate ReservationValid(t: Terms) {
    && 1 <= |t.candidates| <= MAX_CANDIDATES_PER_BATCH
    && DistinctKeys(t.candidates)
    && 0 < t.characters <= MAX_INPUT_CHARS
    && 0 < t.framedIn <= t.maxInput
    && t.reserved.inTokens == t.framedIn
    && t.reserved.outTokens == t.maxOut
    && TokenCost(t.reserved.inTokens, t.reserved.outTokens, t.prices) == Ok(t.reserved.cost)
    && t.reserved.cost <= MAX_BATCH_COST
    && t.reserved.cost <= t.ceilings.validation
    && t.ceilings.extraction + t.reserved.cost <= t.ceilings.total
  }

  function TermsOfWorkflow(t: Terms): WorkflowTerms {
    WorkflowTerms(t.safetyVersion, t.keyIdentity, t.timing, t.ceilings, t.prices, t.maxInput, t.maxOut, t.maxBatches, t.maxCandidates)
  }

  ghost predicate WithinBudget(d: Durable, w: Workflow, r: Request, extractionSpend: nat) {
    && |CallsOf(d.calls, r.key.workflow)| < r.terms.maxBatches
    && CandidateTotal(d.calls, r.key.workflow) + |r.terms.candidates| <= r.terms.maxCandidates
    && r.terms.reserved.cost + Obligation(d.calls, r.key.workflow) <= ValidationCeiling(w)
    && extractionSpend + (r.terms.reserved.cost + Obligation(d.calls, r.key.workflow)) <= TotalCeiling(w)
  }

  function NewChildren(candidates: seq<Candidate>): seq<Child> {
    seq(|candidates|, i requires 0 <= i < |candidates| => Child(candidates[i], Claimed, ZERO_CHARGE, [], None))
  }

  function NewCall(id: nat, t: Terms, env: Env): Call {
    var terms := SortedTerms(t);
    Call(id, terms, Claimed, 0, None, Some(env.freshToken), env.now + t.timing.lease, None, false, 0, None,
         NewChildren(terms.candidates))
  }

  datatype Projection = Projection(callId: nat, reviewItem: int, result: CandidateResult, decision: Decision,
                                   reasons: seq<ReasonCode>, charge: Charge, cacheHit: bool)

  datatype ClaimResultKind = ClaimGranted(token: string, expires: int) | Busy(expires: int)
    | ReplayedCompleted(projections: seq<Projection>) | ReplayedFailed(reason: ReasonCode)
  datatype ClaimOutcome = ClaimOutcome(callId: nat, kind: ClaimResultKind)

  function ProjectionOf(callId: nat, child: Child, index: nat, cacheHit: bool): Projection
    requires child.verdict.Some?
  {
    var v := child.verdict.value;
    Projection(callId, child.candidate.reviewItem, CandidateResult(index + 1, v.claims, v.uncertainty, v.conflicts),
               v.decision, v.reasons, child.charge, cacheHit)
  }

  predicate AllDecided(children: seq<Child>) {
    forall i :: 0 <= i < |children| ==> children[i].status == Completed && children[i].verdict.Some? && children[i].verdict.value.reasons != []
  }

  function Projections(callId: nat, children: seq<Child>, cacheHit: bool): seq<Projection>
    requires AllDecided(children)
  {
    seq(|children|, i requires 0 <= i < |children| => ProjectionOf(callId, children[i], i, cacheHit))
  }

  function Replay(c: Call): Result<ClaimResultKind>
    requires c.status != Claimed
  {
    if c.status == Completed then
      if c.children == [] then Err("completed validation projection is unavailable")
      else if !AllDecided(c.children) then Err("completed validation child set is corrupt")
      else Ok(ReplayedCompleted(Projections(c.id, c.children, true)))
    else
      var failed := set i | 0 <= i < |c.children| && c.children[i].status == Failed :: c.children[i].reasons;
      if exists r :: r in failed && failed == {r} && |r| == 1
      then var r :| r in failed && failed == {r} && |r| == 1; Ok(ReplayedFailed(r[0]))
      else Err("failed validation reason is unavailable")
  }

  /** A row that exists already: replay it if terminal, lease it again if its attempt never started
      and the lease ran out, otherwise report it busy. */
  function ClaimExisting(d: Durable, key: CallKey, t: Terms, drift: bool, env: Env): (Durable, Result<ClaimOutcome>)
    requires key in d.calls
  {
    var c := d.calls[key];
    if c.terms != SortedTerms(t) then (d, Err("validation claim identity changed"))
    else if c.status != Claimed then
      (d, match Replay(c) case Ok(kind) => Ok(ClaimOutcome(c.id, kind)) case Err(e) => Err(e))
    else if drift then (d, Err("validation provider safety identity changed"))
    else if env.now < c.leaseExpires || c.attempts != 0 then (d, Ok(ClaimOutcome(c.id, Busy(c.leaseExpires))))
    else
      var c' := c.(leaseToken := Some(env.freshToken), leaseExpires := env.now + c.terms.timing.lease);
      (d.(calls := d.calls[key := c']), Ok(ClaimOutcome(c.id, ClaimGranted(env.freshToken, c'.leaseExpires))))
  }

  function ClaimNew(d: Durable, r: Request, env: Env): (Durable, Result<ClaimOutcome>) {
    var c := NewCall(d.nextId, r.terms, env);
    (d.(calls := d.calls[r.key := c], nextId := d.nextId + 1), Ok(ClaimOutcome(c.id, ClaimGranted(env.freshToken, c.leaseExpires))))
  }

  ghost function ClaimTx(d: Durable, r: Request, env: Env): (Durable, Result<ClaimOutcome>) {
    if !ReservationValid(r.terms) then (d, Err("validation reservation is invalid"))
    else if env.runtimeKey != Some(r.terms.keyIdentity) then (d, Err("validation runtime key identity changed"))
    else if d.safety.None? || d.safety.value.policy != env.codePolicy then (d, Err("validation provider safety is unavailable"))
    else if r.key.workflow !in d.workflows || d.workflows[r.key.workflow].cancelled then (d, Err("validation workflow is unavailable"))
    else if d.workflows[r.key.workflow].terms != TermsOfWorkflow(r.terms) then (d, Err("validation workflow identity changed"))
    else
      var drift := !env.sourcesOk || !env.rolloutOk || d.safety.value.open || d.safety.value.version != r.terms.safetyVersion;
      if r.key in d.calls then ClaimExisting(d, r.key, r.terms, drift, env)
      else if drift then (d, Err("validation provider safety identity changed"))
      else if !WithinBudget(d, d.workflows[r.key.workflow], r, env.extractionSpend) then (d, Err("signed validation workflow budget exceeded"))
      else ClaimNew(d, r, env)
  }

  // ---- Settlement

  function KeysOf(children: seq<Child>): seq<string> {
    seq(|children|, i requires 0 <= i < |children| => children[i].candidate.key)
  }

  function ZipCharges(inputs: seq<nat>, outputs: seq<nat>, costs: seq<nat>): seq<Charge>
    requires |inputs| == |outputs| == |costs|
  {
    seq(|inputs|, i requires 0 <= i < |inputs| => Charge(inputs[i], outputs[i], costs[i]))
  }

  /** The charges of the children for a call charge: even token split, largest-remainder cost. */
  function ChildCharges(t: Terms, children: seq<Child>, charge: Charge): (r: Result<seq<Charge>>)
    ensures r.Ok? ==> |r.value| == |children|
  {
    var inputs := AllocateTokens(charge.inTokens, |children|);
    var outputs := AllocateTokens(charge.outTokens, |children|);
    if inputs.Err? || outputs.Err? then Err("validation allocation is invalid")
    else
      var costs := AllocateMicroUsd(inputs.value, outputs.value, t.prices, charge.cost, KeysOf(children));
      if costs.Err? || |costs.value| != |children| then Err("validation cost allocation is invalid")
      else Ok(ZipCharges(inputs.value, outputs.value, costs.value))
  }

  function FailedChildren(children: seq<Child>, charges: seq<Charge>, reason: ReasonCode): seq<Child>
    requires |charges| == |children|
  {
    seq(|children|, i requires 0 <= i < |children| => children[i].(status := Failed, reasons := [reason], charge := charges[i]))
  }

  function TerminalFailure(c: Call, reason: ReasonCode, charge: Charge, now: int): Result<Call> {
    var charges := ChildCharges(c.terms, c.children, charge);
    if charges.Err? then Err(charges.reason)
    else Ok(c.(status := Failed, charged := Some(charge), terminalAt := Some(now),
               children := FailedChildren(c.children, charges.value, reason)))
  }

  /** Opening the breaker writes one event and advances the version; an open breaker is left alone. */
  function OpenBudgetBreaker(d: Durable): Durable
    requires d.safety.Some?
  {
    var s := d.safety.value;
    if s.open then d
    else d.(
      safety := Some(s.(version := s.version + 1, open := true, overruns := s.overruns + 1, lastSequence := s.lastSequence + 1)),
      events := d.events + [SafetyEvent(s.lastSequence + 1, BudgetOverrun, s.version, s.version + 1, false, true)])
  }

  function OverrunCost(charge: nat, reserved: nat): nat {
    if charge > reserved then charge - reserved else 0
  }

  function Settled(d: Durable, key: CallKey, c: Call): Durable {
    d.(calls := d.calls[key := c])
  }

  /** Records a charge outside the reservation or the ceilings: the row is flagged and the breaker
      is left open in the same transaction. */
  function SettledOverrun(d: Durable, key: CallKey, c: Call, cost: nat): Durable
    requires d.safety.Some?
  {
    OpenBudgetBreaker(Settled(d, key, c.(overrun := true, overrunCost := OverrunCost(cost, c.terms.reserved.cost))))
  }

  // ---- Start of the single provider attempt

  datatype Admission = Admission(context: Context, contentHmac: string, characters: nat, framedIn: nat, maxOut: nat,
                                 reservedCost: nat, keyIdentity: string, timing: Timing, guards: Guards)

  predicate AdmissionMatches(t: Terms, a: Admission) {
    && a.contentHmac == t.contentHmac && a.characters == t.characters && a.framedIn == t.framedIn && a.maxOut == t.maxOut
    && a.reservedCost == t.reserved.cost && a.keyIdentity == t.keyIdentity && a.timing == t.timing
  }

  function StartTx(d: Durable, a: Admission, env: Env): (Durable, Result<Ticket>) {
    var w := a.context.key.workflow;
    if d.safety.None? then (d, Err("validation provider safety is unavailable"))
    else if w !in d.workflows || d.workflows[w].cancelled then (d, Err("validation workflow is unavailable"))
    else match CallOf(d, a.context)
      case None => (d, Err("locked validation context is required"))
      case Some(c) =>
        if c.status != Claimed || c.attempts != 0 || env.now >= c.leaseExpires then (d, Err("validation attempt is not claimable"))
        else if !AdmissionMatches(c.terms, a) then (d, Err("validation admission identity changed"))
        else
          var guards := env.guards.GetOr(NO_GUARDS);
          if || env.runtimeKey != Some(a.keyIdentity)
             || !SafetyMatches(d.safety.value, env.codePolicy)
             || !env.rolloutOk
             || d.safety.value.version != c.terms.safetyVersion
             || guards != a.guards
          then match TerminalFailure(c, PostValidationDrift, ZERO_CHARGE, env.now)
            case Err(e) => (d, Err(e))
            case Ok(c') => (Settled(d, a.context.key, c'), Err("validation execution guard changed"))
          else
            var c' := c.(attempts := 1, startedAt := Some(env.now), leaseExpires := env.now + c.terms.timing.lease);
            (d.(calls := d.calls[a.context.key := c']),
             Ok(Ticket(AttemptId(a.context.token), a.context, c.terms.timing.sendWindow, c'.leaseExpires, guards)))
  }

  // ---- Dispatch

  datatype Invocation = Invocation(contentHmac: string, characters: nat, framedIn: nat, maxOut: nat)

  /** The read-only transaction in front of the send: `Ok(false)` voids the grant. */
  function DispatchCheck(d: Durable, v: Volatile, g: Grant, inv: Invocation, env: Env): Result<bool> {
    var w := g.context.key.workflow;
    if d.safety.None? then Err("validation provider safety is unavailable")
    else if w !in d.workflows || d.workflows[w].cancelled then Err("validation workflow is unavailable")
    else match CallOf(d, g.context)
      case None => Err("locked validation context is required")
      case Some(c) =>
        if env.guards.None? then Err("validation permission guard is unavailable")
        else Ok(
          && c.status == Claimed && c.attempts == 1 && env.now < c.leaseExpires
          && inv == Invocation(c.terms.contentHmac, c.terms.characters, c.terms.framedIn, c.terms.maxOut)
          && g.context.id in v.guards && env.guards.value == v.guards[g.context.id]
          && env.runtimeKey == Some(c.terms.keyIdentity)
          && SafetyMatches(d.safety.value, env.codePolicy)
          && env.rolloutOk
          && d.safety.value.version == c.terms.safetyVersion)
  }

  function ConsumePermit(p: Permit, clock: int): Result<Permit> {
    if p.consumed then Err("provider send permit was consumed")
    else if p.invalidated || clock >= p.deadline then Err("provider send permit expired")
    else Ok(p.(consumed := true))
  }

  // ---- Completion

  datatype CandidateCompletion = CandidateCompletion(candidate: Candidate, result: CandidateResult, decision: Decision, reasons: seq<ReasonCode>)
  datatype Completion = Completion(context: Context, candidates: seq<CandidateCompletion>, inTokens: int, outTokens: int)

  predicate CompletionLe(a: CandidateCompletion, b: CandidateCompletion) {
    CandidateLe(a.candidate, b.candidate)
  }

  function CandidatesOf(cs: seq<CandidateCompletion>): seq<Candidate> {
    seq(|cs|, i requires 0 <= i < |cs| => cs[i].candidate)
  }

  function ChildCandidates(children: seq<Child>): seq<Candidate> {
    seq(|children|, i requires 0 <= i < |children| => children[i].candidate)
  }

  function CompletedChild(child: Child, done: CandidateCompletion, charge: Charge): Child {
    child.(status := Completed, charge := charge, reasons := done.reasons,
           verdict := Some(Verdict(done.result.claims, done.result.uncertainty, done.result.conflicts, done.decision, done.reasons)))
  }

  function CompletedChildren(children: seq<Child>, done: seq<CandidateCompletion>, charges: seq<Charge>): seq<Child>
    requires |done| == |children| == |charges|
  {
    seq(|children|, i requires 0 <= i < |children| => CompletedChild(children[i], done[i], charges[i]))
  }

  predicate GuardsHold(d: Durable, v: Volatile, c: Call, env: Env)
    requires d.safety.Some?
  {
    && c.id in v.guards && env.guards.GetOr(NO_GUARDS) == v.guards[c.id]
    && env.runtimeKey == Some(c.terms.keyIdentity)
    && SafetyMatches(d.safety.value, env.codePolicy)
    && env.rolloutOk
    && d.safety.value.version == c.terms.safetyVersion
  }

  /** Obligation of the workflow if this call is charged `cost`. */
  ghost function ObligationAfter(calls: map<CallKey, Call>, key: CallKey, cost: nat): nat {
    cost + SumOver(CallsOf(calls, key.workflow) - {key}, OwedIn(calls))
  }

  ghost predicate Overruns(d: Durable, w: Workflow, key: CallKey, c: Call, charge: Charge, extractionSpend: nat) {
    || ExceedsReservation(c.terms, charge)
    || ObligationAfter(d.calls, key, charge.cost) > ValidationCeiling(w)
    || extractionSpend + ObligationAfter(d.calls, key, charge.cost) > TotalCeiling(w)
  }

  function Forget(v: Volatile, id: nat): Volatile {
    v.(dispatched := v.dispatched - {id}, guards := v.guards - {id})
  }

  /** The branches of a completion once its charge is known. */
  ghost function CompleteCharged(d: Durable, v: Volatile, ctx: Context, c: Call, ordered: seq<CandidateCompletion>,
                                 charge: Charge, charges: seq<Charge>, env: Env): (Durable, Volatile, Result<seq<Projection>>)
    requires d.safety.Some? && ctx.key.workflow in d.workflows && |ordered| == |c.children| == |charges|
  {
    var w := d.workflows[ctx.key.workflow];
    if Overruns(d, w, ctx.key, c, charge, env.extractionSpend) then
      match TerminalFailure(c, ReasonCode.BudgetExceeded, charge, env.now)
      case Err(e) => (d, v, Err(e))
      case Ok(c') => (SettledOverrun(d, ctx.key, c', charge.cost), Forget(v, ctx.id), Ok([]))
    else if w.cancelled || !GuardsHold(d, v, c, env) then
      match TerminalFailure(c, PostValidationDrift, charge, env.now)
      case Err(e) => (d, v, Err(e))
      case Ok(c') => (Settled(d, ctx.key, c'), Forget(v, ctx.id), Ok([]))
    else if exists i :: 0 <= i < |ordered| && ordered[i].reasons == [] then
      (d, v, Err("completed validation decision is unavailable"))
    else
      var children := CompletedChildren(c.children, ordered, charges);
      var c' := c.(status := Completed, charged := Some(charge), terminalAt := Some(env.now), children := children);
      (Settled(d, ctx.key, c'), Forget(v, ctx.id), Ok(Projections(c.id, children, false)))
  }

  datatype Priced = Priced(ordered: seq<CandidateCompletion>, charge: Charge, charges: seq<Charge>)

  /** The checks in front of a completion: an attempt under an unexpired lease, the call's own
      children in key order, and usage that can be priced and split. */
  function PriceCompletion(c: Call, done: Completion, now: int): (r: Result<Priced>)
    ensures r.Ok? ==> |r.value.ordered| == |r.value.charges| == |c.children|
  {
    var ordered := SortBy(CompletionLe, done.candidates);
    if c.status != Claimed || c.attempts != 1 || now >= c.leaseExpires then Err("validation call is not completable")
    else if CandidatesOf(ordered) != ChildCandidates(c.children) then Err("validation completion identity changed")
    else match TokenCost(done.inTokens, done.outTokens, c.terms.prices)
      case Err(e) => Err(e)
      case Ok(cost) =>
        var charge := Charge(done.inTokens, done.outTokens, cost);
        match ChildCharges(c.terms, c.children, charge)
        case Err(e) => Err(e)
        case Ok(charges) =>
          assert |ordered| == |CandidatesOf(ordered)| == |c.children|;
          Ok(Priced(ordered, charge, charges))
  }

  ghost function CompleteTx(d: Durable, v: Volatile, ctx: Context, done: Completion, env: Env)
    : (Durable, Volatile, Result<seq<Projection>>)
  {
    if done.context != ctx then (d, v, Err("validation completion context changed"))
    else if ctx.id !in v.dispatched then (d, v, Err("validation provider was not dispatched"))
    else if d.safety.None? then (d, v, Err("validation provider safety is unavailable"))
    else if ctx.key.workflow !in d.workflows then (d, v, Err("validation workflow is unavailable"))
    else match CallOf(d, ctx)
      case None => (d, v, Err("locked validation context is required"))
      case Some(c) =>
        match PriceCompletion(c, done, env.now)
        case Err(e) => (d, v, Err(e))
        case Ok(p) => CompleteCharged(d, v, ctx, c, p.ordered, p.charge, p.charges, env)
  }

  // ---- Failure, cancellation, recovery

  datatype Failure = Failure(context: Context, reason: ReasonCode, usage: Option<(int, int)>)

  /** Reported usage is priced; unknown usage is charged at the reservation. */
  function FailureCharge(c: Call, f: Failure): Result<Charge> {
    if f.usage.None? then Ok(c.terms.reserved)
    else match TokenCost(f.usage.value.0, f.usage.value.1, c.terms.prices)
      case Err(e) => Err(e)
      case Ok(cost) => Ok(Charge(f.usage.value.0, f.usage.value.1, cost))
  }

  predicate ExceedsReservation(t: Terms, charge: Charge) {
    charge.inTokens > t.framedIn || charge.outTokens > t.maxOut || charge.cost > t.reserved.cost
  }

  function FailTx(d: Durable, v: Volatile, ctx: Context, f: Failure, env: Env): (Durable, Volatile, Result<()>) {
    var w := ctx.key.workflow;
    if f.context != ctx then (d, v, Err("validation failure context changed"))
    else if d.safety.None? || d.safety.value.policy != env.codePolicy then (d, v, Err("validation provider safety is unavailable"))
    else if w !in d.workflows then (d, v, Err("validation workflow is unavailable"))
    else match CallOf(d, ctx)
      case None => (d, v, Err("locked validation context is required"))
      case Some(c) =>
        if c.status != Claimed || c.attempts != 1 then (d, v, Err("validation call is not fail-able"))
        else
          match FailureCharge(c, f)
          case Err(e) => (d, v, Err(e))
          case Ok(charge) =>
            match TerminalFailure(c, f.reason, charge, env.now)
            case Err(e) => (d, v, Err(e))
            case Ok(c') =>
              if ExceedsReservation(c.terms, charge)
              then (SettledOverrun(d, ctx.key, c', charge.cost), Forget(v, ctx.id), Ok(()))
              else (Settled(d, ctx.key, c'), Forget(v, ctx.id), Ok(()))
  }

  /** Cancels an attempt that has not started; anything else is left as it is. */
  function CancelTx(d: Durable, ctx: Context, env: Env): (Durable, Result<()>) {
    if d.safety.None? || d.safety.value.policy != env.codePolicy then (d, Err("validation provider safety is unavailable"))
    else if ctx.key.workflow !in d.workflows then (d, Err("validation workflow is unavailable"))
    else match CallOf(d, ctx)
      case None => (d, Err("locked validation context is required"))
      case Some(c) =>
        if c.status != Claimed || c.attempts != 0 then (d, Ok(()))
        else match TerminalFailure(c, PostValidationDrift, ZERO_CHARGE, env.now)
          case Err(e) => (d, Err(e))
          case Ok(c') => (Settled(d, ctx.key, c'), Ok(()))
  }

  /** Charges the reservation of an attempt whose lease ran out. */
  function RecoverTx(d: Durable, ctx: Context, env: Env): (Durable, Result<()>) {
    if d.safety.None? || d.safety.value.policy != env.codePolicy then (d, Err("validation provider safety is unavailable"))
    else if ctx.key.workflow !in d.workflows then (d, Err("validation workflow is unavailable"))
    else match CallOf(d, ctx)
      case None => (d, Err("locked validation context is required"))
      case Some(c) =>
        if c.status != Claimed || c.attempts != 1 || env.now < c.leaseExpires then (d, Err("expired validation attempt is not recoverable"))
        else match TerminalFailure(c, ReasonCode.ValidatorUnavailable, c.terms.reserved, env.now)
          case Err(e) => (d, Err(e))
          case Ok(c') => (Settled(d, ctx.key, c'), Ok(()))
  }

  // ---- Operator transitions

  function ZeroedChildren(children: seq<Child>): seq<Child> {
    seq(|children|, i requires 0 <= i < |children| =>
      if children[i].status == Claimed
      then children[i].(status := Failed, reasons := [ReasonCode.ValidatorUnavailable], charge := ZERO_CHARGE)
      else children[i])
  }

  /** Operator recovery, by row and host clock; `force` is the cancel-workflow form. */
  function AdminRecoverTx(d: Durable, key: CallKey, now: int, force: bool): (Durable, nat) {
    if key !in d.calls || d.calls[key].status != Claimed || (!force && d.calls[key].leaseExpires > now) then (d, 0)
    else
      var c := d.calls[key];
      var c' := c.(status := Failed, leaseToken := None, terminalAt := Some(now),
                   charged := Some(if c.attempts == 1 then c.terms.reserved else ZERO_CHARGE),
                   children := ZeroedChildren(c.children));
      (d.(calls := d.calls[key := c']), 1)
  }

  function AuthorizeInitialTx(d: Durable, policy: nat, env: Env): (Durable, Result<()>) {
    if policy != env.codePolicy then (d, Err("provider policy is not in the registry"))
    else if env.runtimeKey.None? then (d, Err("runtime key state is unavailable"))
    else if d.safety.Some? then (d, Err("provider safety row already exists"))
    else (d.(safety := Some(Safety(1, policy, false, 0, 1)),
             events := d.events + [SafetyEvent(1, InitialAuthorized, 0, 1, false, false)]), Ok(()))
  }

  function ClearBreakerTx(d: Durable, expectedVersion: nat, policy: nat, env: Env): (Durable, Result<()>) {
    if env.runtimeKey.None? then (d, Err("runtime key state is unavailable"))
    else if d.safety.None? || d.safety.value.version != expectedVersion then (d, Err("provider safety state version changed"))
    else
      var s := d.safety.value;
      if !s.open then (d, Err("provider breaker is not open"))
      else if policy == s.policy then (d, Err("provider clear requires a new cost policy"))
      else if policy != env.codePolicy then (d, Err("provider policy is not in the registry"))
      else (d.(safety := Some(s.(version := s.version + 1, policy := policy, open := false, lastSequence := s.lastSequence + 1)),
               events := d.events + [SafetyEvent(s.lastSequence + 1, BreakerCleared, s.version, s.version + 1, true, false)]), Ok(()))
  }
}
