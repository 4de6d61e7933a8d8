/** The store as a process runs it: tables shared with other processes, grants kept to itself. Each
    method is one transaction followed by its local bookkeeping, and is proved to do to both exactly
    what the transaction functions of `ValidationProtocol` say. */
module ValidationStore {
  import opened Outcomes
  import opened Sorting
  import opened Sums
  import opened CostAllocation
  import opened AutoReviewPolicy
  import opened ValidationProtocol

  /** The durable tables. */
  class Tables {
    var calls: map<CallKey, Call>
    var workflows: map<WorkflowId, Workflow>
    var safety: Option<Safety>
    var events: seq<SafetyEvent>
    var nextId: nat

    function View(): Durable
      reads this
    {
      Durable(calls, workflows, safety, events, nextId)
    }

    constructor ()
      ensures View() == Durable(map[], map[], None, [], 0)
    {
      calls, workflows, safety, events, nextId := map[], map[], None, [], 0;
    }

    /** Adds up what the selected rows owe and how many candidates they hold. */
    method Totals(selected: set<CallKey>) returns (owed: nat, candidates: nat)
      requires selected <= calls.Keys
      ensures owed == SumOver(selected, OwedIn(calls)) && candidates == SumOver(selected, CandidatesIn(calls))
    {
      owed, candidates := 0, 0;
      var rest := selected;
      while rest != {}
        invariant rest <= selected
        invariant owed + SumOver(rest, OwedIn(calls)) == SumOver(selected, OwedIn(calls))
        invariant candidates + SumOver(rest, CandidatesIn(calls)) == SumOver(selected, CandidatesIn(calls))
        decreases rest
      {
        var k :| k in rest;
        SumOverRemove(rest, OwedIn(calls), k);
        SumOverRemove(rest, CandidatesIn(calls), k);
        owed := owed + Owed(calls[k]);
        candidates := candidates + |calls[k].terms.candidates|;
        rest := rest - {k};
      }
    }

    /** Writes one event and moves the row to it, unless the breaker is open already. */
    method OpenBreaker()
      requires safety.Some?
      modifies this`safety, this`events
      ensures View() == OpenBudgetBreaker(old(View()))
    {
      var s := safety.value;
      if s.open {
        return;
      }
      var next := s.version + 1;
      var sequence := s.lastSequence + 1;
      events := events + [SafetyEvent(sequence, BudgetOverrun, s.version, next, false, true)];
      safety := Some(Safety(next, s.policy, true, s.overruns + 1, sequence));
    }

    /** Fails the call and, one by one, its children, splitting the charge among them. */
    method FailCall(key: CallKey, reason: ReasonCode, charge: Charge, now: int) returns (r: Result<()>)
      requires key in calls
      modifies this`calls
      ensures match TerminalFailure(old(calls[key]), reason, charge, now)
              case Ok(c) => r == Ok(()) && View() == Settled(old(View()), key, c)
              case Err(e) => r == Err(e) && View() == old(View())
    {
      var c := calls[key];
      var charges := ChargeChildren(c.terms, c.children, charge);
      if charges.Err? {
        return Err(charges.reason);
      }
      var children := c.children;
      for i := 0 to |children|
        invariant |children| == |c.children|
        invariant forall k :: 0 <= k < i ==> children[k] == c.children[k].(status := Failed, reasons := [reason], charge := charges.value[k])
        invariant forall k :: i <= k < |children| ==> children[k] == c.children[k]
      {
        children := children[i := children[i].(status := Failed, reasons := [reason], charge := charges.value[i])];
      }
      assert children == FailedChildren(c.children, charges.value, reason);
      calls := calls[key := c.(status := Failed, charged := Some(charge), terminalAt := Some(now), children := children)];
      return Ok(());
    }
  }

  /** The split of a charge among children, with the in-place cost allocation. */
  method ChargeChildren(t: Terms, children: seq<Child>, charge: Charge) returns (r: Result<seq<Charge>>)
    ensures r == ChildCharges(t, children, charge)
  {
    var inputs := AllocateTokens(charge.inTokens, |children|);
    var outputs := AllocateTokens(charge.outTokens, |children|);
    if inputs.Err? || outputs.Err? {
      return Err("validation allocation is invalid");
    }
    var costs := AllocateMicroUsdInPlace(inputs.value, outputs.value, t.prices, charge.cost, KeysOf(children));
    if costs.Err? || |costs.value| != |children| {
      return Err("validation cost allocation is invalid");
    }
    r := Ok(ZipCharges(inputs.value, outputs.value, costs.value));
  }

  lemma SettleTwice(d: Durable, key: CallKey, c: Call, cost: nat)
    requires d.safety.Some?
    ensures SettledOverrun(Settled(d, key, c), key, c, cost) == SettledOverrun(d, key, c, cost)
  {}

  /** Writes each result into its child, in key order; a child without a decision stops the loop. */
  method CompleteChildren(before: seq<Child>, ordered: seq<CandidateCompletion>, charges: seq<Charge>) returns (r: Result<seq<Child>>)
    requires |before| == |ordered| == |charges|
    ensures r == if exists i :: 0 <= i < |ordered| && ordered[i].reasons == [] then Err("completed validation decision is unavailable")
                 else Ok(CompletedChildren(before, ordered, charges))
  {
    var children := before;
    for i := 0 to |children|
      invariant |children| == |before|
      invariant forall k :: 0 <= k < i ==> ordered[k].reasons != [] && children[k] == CompletedChild(before[k], ordered[k], charges[k])
      invariant forall k :: i <= k < |children| ==> children[k] == before[k]
    {
      if ordered[i].reasons == [] {
        return Err("completed validation decision is unavailable");
      }
      children := children[i := CompletedChild(children[i], ordered[i], charges[i])];
    }
    assert children == CompletedChildren(before, ordered, charges);
    return Ok(children);
  }

  class AutoReviewValidationStore {
    const db: Tables
    var activeGrants: map<string, Grant>
    var dispatchedCalls: set<nat>
    var attemptGuards: map<nat, Guards>

    function View(): Volatile
      reads this
    {
      Volatile(activeGrants, dispatchedCalls, attemptGuards)
    }

    constructor (tables: Tables)
      ensures db == tables && View() == NO_VOLATILE
    {
      db := tables;
      activeGrants, dispatchedCalls, attemptGuards := map[], {}, map[];
    }

    method ClaimOrReplay(request: Request, env: Env) returns (r: Result<ClaimOutcome>)
      modifies db
      ensures (db.View(), r) == ClaimTx(old(db.View()), request, env)
    {
      hide SumOver;
      hide StringLe;
      hide SortBy;
      if !ReservationValid(request.terms) {
        return Err("validation reservation is invalid");
      }
      if env.runtimeKey != Some(request.terms.keyIdentity) {
        return Err("validation runtime key identity changed");
      }
      if db.safety.None? || db.safety.value.policy != env.codePolicy {
        return Err("validation provider safety is unavailable");
      }
      var key := request.key;
      if key.workflow !in db.workflows || db.workflows[key.workflow].cancelled {
        return Err("validation workflow is unavailable");
      }
      var workflow := db.workflows[key.workflow];
      if workflow.terms != TermsOfWorkflow(request.terms) {
        return Err("validation workflow identity changed");
      }
      var drift := !env.sourcesOk || !env.rolloutOk || db.safety.value.open || db.safety.value.version != request.terms.safetyVersion;
      if key in db.calls {
        r := ReplayOrLease(key, request, drift, env);
        return;
      }
      if drift {
        return Err("validation provider safety identity changed");
      }
      var siblings := set k | k in db.calls && k.workflow == key.workflow;
      var owed, candidates := db.Totals(siblings);
      assert siblings == CallsOf(db.calls, key.workflow);
      var total := request.terms.reserved.cost + owed;
      if |siblings| >= request.terms.maxBatches || candidates + |request.terms.candidates| > request.terms.maxCandidates
         || total > ValidationCeiling(workflow) || env.extractionSpend + total > TotalCeiling(workflow) {
        return Err("signed validation workflow budget exceeded");
      }
      r := InsertCall(request, env);
    }

    method ReplayOrLease(key: CallKey, request: Request, drift: bool, env: Env) returns (r: Result<ClaimOutcome>)
      requires key in db.calls
      modifies db
      ensures (db.View(), r) == ClaimExisting(old(db.View()), key, request.terms, drift, env)
    {
      hide SortBy;
      var c := db.calls[key];
      if c.terms != SortedTerms(request.terms) {
        return Err("validation claim identity changed");
      }
      if c.status != Claimed {
        var replay := Replay(c);
        match replay {
          case Ok(kind) => return Ok(ClaimOutcome(c.id, kind));
          case Err(e) => return Err(e);
        }
      }
      if drift {
        return Err("validation provider safety identity changed");
      }
      if env.now < c.leaseExpires || c.attempts != 0 {
        return Ok(ClaimOutcome(c.id, Busy(c.leaseExpires)));
      }
      var expires := env.now + c.terms.timing.lease;
      db.calls := db.calls[key := c.(leaseToken := Some(env.freshToken), leaseExpires := expires)];
      return Ok(ClaimOutcome(c.id, ClaimGranted(env.freshToken, expires)));
    }

    method InsertCall(request: Request, env: Env) returns (r: Result<ClaimOutcome>)
      modifies db
      ensures (db.View(), r) == ClaimNew(old(db.View()), request, env)
    {
      hide SortBy;
      var terms := SortedTerms(request.terms);
      var children: seq<Child> := [];
      for i := 0 to |terms.candidates|
        invariant db.View() == old(db.View())
        invariant children == NewChildren(terms.candidates[..i])
      {
        children := children + [Child(terms.candidates[i], Claimed, ZERO_CHARGE, [], None)];
      }
      assert terms.candidates[..|terms.candidates|] == terms.candidates;
      var expires := env.now + terms.timing.lease;
      var c := Call(db.nextId, terms, Claimed, 0, None, Some(env.freshToken), expires, None, false, 0, None, children);
      db.calls := db.calls[request.key := c];
      db.nextId := db.nextId + 1;
      return Ok(ClaimOutcome(c.id, ClaimGranted(env.freshToken, expires)));
    }

    /** Starts the attempt and, once that has committed, keeps a grant for the new permit. */
    method MarkAttemptStarted(admission: Admission, env: Env, clock: int, permit: nat) returns (r: Result<Permit>)
      modifies this, db
      ensures var (d, t) := StartTx(old(db.View()), admission, env);
              && db.View() == d
              && (r.Ok? <==> t.Ok?)
              && (t.Ok? ==>
                  && r.value == Permit(t.value.attempt, clock + t.value.sendWindow, false, false, admission.context.key)
                  && View() == old(View()).(active := old(activeGrants)[t.value.attempt := Grant(permit, admission.context)],
                                            guards := old(attemptGuards)[admission.context.id := t.value.guards]))
              && (t.Err? ==> r.reason == t.reason && View() == old(View()))
    {
      hide TerminalFailure;
      var ctx := admission.context;
      if db.safety.None? {
        return Err("validation provider safety is unavailable");
      }
      if ctx.key.workflow !in db.workflows || db.workflows[ctx.key.workflow].cancelled {
        return Err("validation workflow is unavailable");
      }
      if CallOf(db.View(), ctx).None? {
        return Err("locked validation context is required");
      }
      var c := db.calls[ctx.key];
      if c.status != Claimed || c.attempts != 0 || env.now >= c.leaseExpires {
        return Err("validation attempt is not claimable");
      }
      if !AdmissionMatches(c.terms, admission) {
        return Err("validation admission identity changed");
      }
      var guards := env.guards.GetOr(NO_GUARDS);
      if env.runtimeKey != Some(admission.keyIdentity) || !SafetyMatches(db.safety.value, env.codePolicy) || !env.rolloutOk
         || db.safety.value.version != c.terms.safetyVersion || guards != admission.guards {
        var failed := db.FailCall(ctx.key, PostValidationDrift, ZERO_CHARGE, env.now);
        if failed.Err? {
          return Err(failed.reason);
        }
        return Err("validation execution guard changed");
      }
      c := c.(attempts := 1, startedAt := Some(env.now), leaseExpires := env.now + c.terms.timing.lease);
      db.calls := db.calls[ctx.key := c];
      var attempt := AttemptId(ctx.token);
      activeGrants := activeGrants[attempt := Grant(permit, ctx)];
      attemptGuards := attemptGuards[ctx.id := guards];
      return Ok(Permit(attempt, clock + c.terms.timing.sendWindow, false, false, ctx.key));
    }

    /** Dispatch with nothing in between: the check, then the permit. `sent` says whether the
        provider is invoked; the permit is returned as it is left. */
    method Dispatch(attempt: string, permit: nat, p: Permit, invocation: Invocation, env: Env, clock: int)
      returns (sent: bool, p': Permit)
      modifies this
      ensures db.View() == old(db.View())
      ensures var held := attempt in old(activeGrants) && old(activeGrants)[attempt].permit == permit;
              var check := if held then DispatchCheck(db.View(), old(View()), old(activeGrants)[attempt], invocation, env) else Err("");
              && (sent <==> check == Ok(true) && ConsumePermit(p, clock).Ok?)
              && p' == (if sent then p.(consumed := true) else if check == Ok(false) then p.(invalidated := true) else p)
              && View() == (if check.Err? then old(View())
                            else old(View()).(active := old(activeGrants) - {attempt},
                                              dispatched := old(dispatchedCalls) + if sent then {old(activeGrants)[attempt].context.id} else {}))
    {
      if attempt !in activeGrants || activeGrants[attempt].permit != permit {
        return false, p;
      }
      var grant := activeGrants[attempt];
      var check := DispatchCheck(db.View(), View(), grant, invocation, env);
      if check.Err? {
        return false, p;
      }
      activeGrants := activeGrants - {attempt};
      if !check.value {
        return false, p.(invalidated := true);
      }
      if p.consumed || p.invalidated || clock >= p.deadline {
        return false, p;
      }
      dispatchedCalls := dispatchedCalls + {grant.context.id};
      return true, p.(consumed := true);
    }

    method Complete(ctx: Context, done: Completion, env: Env) returns (r: Result<seq<Projection>>)
      modifies this, db
      ensures (db.View(), View(), r) == CompleteTx(old(db.View()), old(View()), ctx, done, env)
    {
      hide SumOver;
      hide PriceCompletion;
      if done.context != ctx {
        return Err("validation completion context changed");
      }
      if ctx.id !in dispatchedCalls {
        return Err("validation provider was not dispatched");
      }
      if db.safety.None? {
        return Err("validation provider safety is unavailable");
      }
      if ctx.key.workflow !in db.workflows {
        return Err("validation workflow is unavailable");
      }
      if CallOf(db.View(), ctx).None? {
        return Err("locked validation context is required");
      }
      var c := db.calls[ctx.key];
      var priced := Price(c, done, env.now);
      match priced {
        case Err(e) => return Err(e);
        case Ok(p) => r := Settle(ctx, c, p, env);
      }
    }

    method Price(c: Call, done: Completion, now: int) returns (r: Result<Priced>)
      ensures r == PriceCompletion(c, done, now)
    {
      if c.status != Claimed || c.attempts != 1 || now >= c.leaseExpires {
        return Err("validation call is not completable");
      }
      var ordered := SortBy(CompletionLe, done.candidates);
      if CandidatesOf(ordered) != ChildCandidates(c.children) {
        return Err("validation completion identity changed");
      }
      var cost := TokenCost(done.inTokens, done.outTokens, c.terms.prices);
      if cost.Err? {
        return Err(cost.reason);
      }
      var charge := Charge(done.inTokens, done.outTokens, cost.value);
      var charges := ChargeChildren(c.terms, c.children, charge);
      if charges.Err? {
        return Err(charges.reason);
      }
      return Ok(Priced(ordered, charge, charges.value));
    }

    method Settle(ctx: Context, c: Call, p: Priced, env: Env) returns (r: Result<seq<Projection>>)
      requires CallOf(db.View(), ctx) == Some(c) && db.safety.Some? && ctx.key.workflow in db.workflows && c.id == ctx.id
      requires |p.ordered| == |c.children| == |p.charges|
      modifies this, db
      ensures (db.View(), View(), r)
           == CompleteCharged(old(db.View()), old(View()), ctx, c, p.ordered, p.charge, p.charges, env)
    {
      hide TerminalFailure;
      hide SumOver;
      var workflow := db.workflows[ctx.key.workflow];
      var others := set k | k in db.calls && k.workflow == ctx.key.workflow && k != ctx.key;
      var owed, _ := db.Totals(others);
      assert others == CallsOf(db.calls, ctx.key.workflow) - {ctx.key};
      var obligation := p.charge.cost + owed;
      if ExceedsReservation(c.terms, p.charge) || obligation > ValidationCeiling(workflow)
         || env.extractionSpend + obligation > TotalCeiling(workflow) {
        var failed := db.FailCall(ctx.key, ReasonCode.BudgetExceeded, p.charge, env.now);
        if failed.Err? {
          return Err(failed.reason);
        }
        ghost var failedCall := db.calls[ctx.key];
        FlagOverrun(ctx.key, p.charge.cost);
        SettleTwice(old(db.View()), ctx.key, failedCall, p.charge.cost);
        ForgetCall(ctx.id);
        return Ok([]);
      }
      if workflow.cancelled || !GuardsHold(db.View(), View(), c, env) {
        var failed := db.FailCall(ctx.key, PostValidationDrift, p.charge, env.now);
        if failed.Err? {
          return Err(failed.reason);
        }
        ForgetCall(ctx.id);
        return Ok([]);
      }
      var decided := CompleteChildren(c.children, p.ordered, p.charges);
      if decided.Err? {
        return Err(decided.reason);
      }
      var children := decided.value;
      db.calls := db.calls[ctx.key := c.(status := Completed, charged := Some(p.charge), terminalAt := Some(env.now), children := children)];
      ForgetCall(ctx.id);
      return Ok(Projections(c.id, children, false));
    }

    method FlagOverrun(key: CallKey, cost: nat)
      requires key in db.calls && db.safety.Some?
      modifies db
      ensures db.View() == SettledOverrun(old(db.View()), key, old(db.calls[key]), cost)
    {
      var c := db.calls[key];
      db.calls := db.calls[key := c.(overrun := true, overrunCost := OverrunCost(cost, c.terms.reserved.cost))];
      db.OpenBreaker();
    }

    method ForgetCall(id: nat)
      modifies this
      ensures View() == Forget(old(View()), id)
    {
      dispatchedCalls := dispatchedCalls - {id};
      attemptGuards := attemptGuards - {id};
    }

    method Fail(ctx: Context, f: Failure, env: Env) returns (r: Result<()>)
      modifies this, db
      ensures (db.View(), View(), r) == FailTx(old(db.View()), old(View()), ctx, f, env)
    {
      hide TerminalFailure;
      if f.context != ctx {
        return Err("validation failure context changed");
      }
      if db.safety.None? || db.safety.value.policy != env.codePolicy {
        return Err("validation provider safety is unavailable");
      }
      if ctx.key.workflow !in db.workflows {
        return Err("validation workflow is unavailable");
      }
      if CallOf(db.View(), ctx).None? {
        return Err("locked validation context is required");
      }
      var c := db.calls[ctx.key];
      if c.status != Claimed || c.attempts != 1 {
        return Err("validation call is not fail-able");
      }
      var charge := c.terms.reserved;
      if f.usage.Some? {
        var cost := TokenCost(f.usage.value.0, f.usage.value.1, c.terms.prices);
        if cost.Err? {
          return Err(cost.reason);
        }
        charge := Charge(f.usage.value.0, f.usage.value.1, cost.value);
      }
      var failed := db.FailCall(ctx.key, f.reason, charge, env.now);
      if failed.Err? {
        return Err(failed.reason);
      }
      if ExceedsReservation(c.terms, charge) {
        ghost var failedCall := db.calls[ctx.key];
        FlagOverrun(ctx.key, charge.cost);
        SettleTwice(old(db.View()), ctx.key, failedCall, charge.cost);
      }
      ForgetCall(ctx.id);
      return Ok(());
    }

    method Cancel(ctx: Context, env: Env) returns (r: Result<()>)
      modifies db
      ensures (db.View(), r) == CancelTx(old(db.View()), ctx, env)
    {
      hide TerminalFailure;
      if db.safety.None? || db.safety.value.policy != env.codePolicy {
        return Err("validation provider safety is unavailable");
      }
      if ctx.key.workflow !in db.workflows {
        return Err("validation workflow is unavailable");
      }
      if CallOf(db.View(), ctx).None? {
        return Err("locked validation context is required");
      }
      var c := db.calls[ctx.key];
      if c.status != Claimed || c.attempts != 0 {
        return Ok(());
      }
      r := db.FailCall(ctx.key, PostValidationDrift, ZERO_CHARGE, env.now);
    }

    /** Recovery also drops every grant held for the recovered context; `voided` names their permits. */
    method RecoverExpired(ctx: Context, env: Env) returns (r: Result<()>, voided: set<nat>)
      modifies this, db
      ensures (db.View(), r) == RecoverTx(old(db.View()), ctx, env)
      ensures r.Err? ==> View() == old(View()) && voided == {}
      ensures r.Ok? ==> dispatchedCalls == old(dispatchedCalls) - {ctx.id} && attemptGuards == old(attemptGuards) - {ctx.id}
      ensures r.Ok? ==> activeGrants == map a | a in old(activeGrants) && old(activeGrants)[a].context != ctx :: old(activeGrants)[a]
      ensures r.Ok? ==> voided == set a | a in old(activeGrants) && old(activeGrants)[a].context == ctx :: old(activeGrants)[a].permit
    {
      hide TerminalFailure;
      voided := {};
      if db.safety.None? || db.safety.value.policy != env.codePolicy {
        return Err("validation provider safety is unavailable"), voided;
      }
      if ctx.key.workflow !in db.workflows {
        return Err("validation workflow is unavailable"), voided;
      }
      if CallOf(db.View(), ctx).None? {
        return Err("locked validation context is required"), voided;
      }
      var c := db.calls[ctx.key];
      if c.status != Claimed || c.attempts != 1 || env.now < c.leaseExpires {
        return Err("expired validation attempt is not recoverable"), voided;
      }
      r := db.FailCall(ctx.key, ReasonCode.ValidatorUnavailable, c.terms.reserved, env.now);
      if r.Err? {
        return;
      }
      var rest := activeGrants.Keys;
      while rest != {}
        invariant rest <= old(activeGrants).Keys
        invariant activeGrants == map a | a in old(activeGrants) && (a in rest || old(activeGrants)[a].context != ctx) :: old(activeGrants)[a]
        invariant voided == set a | a in old(activeGrants) && a !in rest && old(activeGrants)[a].context == ctx :: old(activeGrants)[a].permit
        invariant dispatchedCalls == old(dispatchedCalls) && attemptGuards == old(attemptGuards)
        invariant (db.View(), r) == RecoverTx(old(db.View()), ctx, env)
        decreases rest
      {
        var a :| a in rest;
        if activeGrants[a].context == ctx {
          voided := voided + {activeGrants[a].permit};
          activeGrants := activeGrants - {a};
        }
        rest := rest - {a};
      }
      ForgetCall(ctx.id);
    }
  }
}
