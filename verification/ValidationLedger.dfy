/** The in-memory twin of the store, with its own guards: one lock around every operation, leases
    and permits checked under it. */
module ValidationLedger {
  import opened Outcomes
  import opened Sorting
  import opened Sums
  import opened CostAllocation
  import opened AutoReviewPolicy
  import opened ValidationProtocol

  datatype LedgerCall = LedgerCall(
    request: Request,
    id: nat,
    token: string,
    leaseExpires: int,
    attempts: nat,
    dispatched: bool,
    status: Status,
    projections: seq<Projection>,
    reason: Option<ReasonCode>,
    charged: Option<Charge>,
    overrun: bool,
    overrunCost: nat,
    cancelled: bool)

  /** A live grant: its object identity, its call, and its permit. */
  datatype LedgerGrant = LedgerGrant(id: nat, key: CallKey, permit: Permit)

  datatype Ledger = Ledger(
    calls: map<CallKey, LedgerCall>,
    grants: map<string, LedgerGrant>,
    nextCall: nat,
    nextGrant: nat,
    breakerOpen: bool,
    breakerEvents: nat)

  const EMPTY := Ledger(map[], map[], 1, 0, false, 0)

  function NewLedgerCall(r: Request, id: nat, token: string, now: int): LedgerCall {
    LedgerCall(r, id, token, now + r.terms.timing.lease, 0, false, Claimed, [], None, None, false, 0, false)
  }

  function Locked(l: Ledger, c: Context): Option<LedgerCall> {
    if c.key in l.calls && l.calls[c.key].id == c.id && l.calls[c.key].token == c.token then Some(l.calls[c.key]) else None
  }

  function ReplayOf(c: LedgerCall): Result<ClaimOutcome>
    requires c.status != Claimed
  {
    if c.status == Completed then
      if c.projections == [] then Err("completed validation projection is unavailable")
      else Ok(ClaimOutcome(c.id, ReplayedCompleted(c.projections)))
    else match c.reason
      case None => Err("failed validation reason is unavailable")
      case Some(reason) => Ok(ClaimOutcome(c.id, ReplayedFailed(reason)))
  }

  function LedgerClaim(l: Ledger, r: Request, now: int, token: string): (Ledger, Result<ClaimOutcome>) {
    if !ReservationValid(r.terms) then (l, Err("validation reservation is invalid"))
    else if r.key !in l.calls then
      var c := NewLedgerCall(r, l.nextCall, token, now);
      (l.(calls := l.calls[r.key := c], nextCall := l.nextCall + 1), Ok(ClaimOutcome(c.id, ClaimGranted(token, c.leaseExpires))))
    else
      var c := l.calls[r.key];
      if c.request != r then (l, Err("validation claim identity changed"))
      else if c.status != Claimed then (l, ReplayOf(c))
      else if now < c.leaseExpires || c.attempts != 0 then (l, Ok(ClaimOutcome(c.id, Busy(c.leaseExpires))))
      else
        var c' := c.(token := token, leaseExpires := now + r.terms.timing.lease);
        (l.(calls := l.calls[r.key := c']), Ok(ClaimOutcome(c.id, ClaimGranted(token, c'.leaseExpires))))
  }

  /** Starting tests the attempt count and the lease, but not the status. A commit that raises
      leaves everything as it was. */
  function LedgerStart(l: Ledger, a: Admission, now: int, clock: int, commits: bool): (Ledger, Result<LedgerGrant>) {
    match Locked(l, a.context)
    case None => (l, Err("validation attempt is not claimable"))
    case Some(c) =>
      if c.attempts != 0 || now >= c.leaseExpires then (l, Err("validation attempt is not claimable"))
      else if !AdmissionMatches(c.request.terms, a) then (l, Err("validation admission identity changed"))
      else if !commits then (l, Err("commit failed"))
      else
        var c' := c.(attempts := 1, leaseExpires := now + a.timing.lease);
        var attempt := AttemptId(c.token);
        var grant := LedgerGrant(l.nextGrant, a.context.key, Permit(attempt, clock + a.timing.sendWindow, false, false, a.context.key));
        (l.(calls := l.calls[a.context.key := c'], grants := l.grants[attempt := grant], nextGrant := l.nextGrant + 1), Ok(grant))
  }

  function LedgerDispatch(l: Ledger, attempt: string, grant: nat, inv: Invocation, now: int, clock: int): (Ledger, Result<CallKey>) {
    if attempt !in l.grants || l.grants[attempt].id != grant || l.grants[attempt].key !in l.calls
    then (l, Err("committed provider attempt grant is required"))
    else
      var g := l.grants[attempt];
      var c := l.calls[g.key];
      var t := c.request.terms;
      var dropped := l.(grants := l.grants - {attempt});
      if now >= c.leaseExpires || inv != Invocation(t.contentHmac, t.characters, t.framedIn, t.maxOut)
      then (dropped, Err("prepared validation dispatch changed"))
      else match ConsumePermit(g.permit, clock)
        case Err(e) => (dropped, Err(e))
        case Ok(_) => (dropped.(calls := l.calls[g.key := c.(dispatched := true)]), Ok(g.key))
  }

  function LedgerOwed(c: LedgerCall): nat {
    if c.status == Claimed || c.charged.None? then c.request.terms.reserved.cost else c.charged.value.cost
  }

  ghost function LedgerOwedIn(calls: map<CallKey, LedgerCall>): CallKey -> nat {
    k => if k in calls then LedgerOwed(calls[k]) else 0
  }

  ghost function Siblings(calls: map<CallKey, LedgerCall>, key: CallKey): set<CallKey> {
    set k | k in calls && k.workflow == key.workflow && k != key
  }

  ghost predicate LedgerOverruns(l: Ledger, key: CallKey, t: Terms, charge: Charge) {
    var obligation := charge.cost + SumOver(Siblings(l.calls, key), LedgerOwedIn(l.calls));
    || charge.inTokens > t.maxInput
    || charge.outTokens > t.maxOut
    || charge.cost > t.reserved.cost
    || obligation > Min(MAX_VALIDATION_COST, t.ceilings.validation)
    || t.ceilings.extraction + obligation > t.ceilings.total
  }

  predicate SlotsMatch(done: seq<CandidateCompletion>) {
    forall i :: 0 <= i < |done| ==> done[i].result.slot == i + 1
  }

  function ProjectionsOf(id: nat, done: seq<CandidateCompletion>, charges: seq<Charge>): seq<Projection>
    requires |done| == |charges|
  {
    seq(|done|, i requires 0 <= i < |done| =>
      Projection(id, done[i].candidate.reviewItem, done[i].result, done[i].decision, done[i].reasons, charges[i], false))
  }

  function CompletionKeys(done: seq<CandidateCompletion>): seq<string> {
    seq(|done|, i requires 0 <= i < |done| => done[i].candidate.key)
  }

  /** The completions in key order with their shares, or the check that refuses them. */
  function LedgerPrice(t: Terms, done: Completion): (r: Result<Priced>)
    ensures r.Ok? ==> |r.value.ordered| == |r.value.charges|
  {
    var ordered := SortBy(CompletionLe, done.candidates);
    if CandidatesOf(ordered) != SortedTerms(t).candidates then Err("validation completion set changed")
    else if !SlotsMatch(ordered) then Err("validation completion slot changed")
    else
      var inputs := AllocateTokens(done.inTokens, |ordered|);
      var outputs := AllocateTokens(done.outTokens, |ordered|);
      if inputs.Err? || outputs.Err? then Err("validation allocation is invalid")
      else match TokenCost(done.inTokens, done.outTokens, t.prices)
        case Err(e) => Err(e)
        case Ok(cost) =>
          match AllocateMicroUsd(inputs.value, outputs.value, t.prices, cost, CompletionKeys(ordered))
          case Err(e) => Err(e)
          case Ok(costs) =>
            if |costs| != |ordered| then Err("validation cost allocation is invalid")
            else Ok(Priced(ordered, Charge(done.inTokens, done.outTokens, cost), ZipCharges(inputs.value, outputs.value, costs)))
  }

  function LedgerFailed(c: LedgerCall, reason: ReasonCode, charge: Charge): LedgerCall {
    c.(status := Failed, reason := Some(reason), charged := Some(charge))
  }

  ghost function LedgerComplete(l: Ledger, ctx: Context, done: Completion, now: int): (Ledger, Result<seq<Projection>>) {
    match Locked(l, ctx)
    case None => (l, Err("locked validation context is required"))
    case Some(c) =>
      if c.status != Claimed || c.attempts != 1 || !c.dispatched || now >= c.leaseExpires || done.context != ctx
      then (l, Err("validation call is not completable"))
      else match LedgerPrice(c.request.terms, done)
        case Err(e) => (l, Err(e))
        case Ok(p) =>
          if LedgerOverruns(l, ctx.key, c.request.terms, p.charge) then
            var c' := LedgerFailed(c, ReasonCode.BudgetExceeded, p.charge)
                      .(overrun := true, overrunCost := OverrunCost(p.charge.cost, c.request.terms.reserved.cost));
            (l.(calls := l.calls[ctx.key := c'], breakerOpen := true,
                breakerEvents := l.breakerEvents + if l.breakerOpen then 0 else 1), Ok([]))
          else if c.cancelled then
            (l.(calls := l.calls[ctx.key := LedgerFailed(c, PostValidationDrift, p.charge)]), Ok([]))
          else
            var projections := ProjectionsOf(c.id, p.ordered, p.charges);
            (l.(calls := l.calls[ctx.key := c.(status := Completed, projections := projections, charged := Some(p.charge))]), Ok(projections))
  }

  function LedgerCancel(l: Ledger, ctx: Context): (Ledger, Result<()>) {
    match Locked(l, ctx)
    case None => (l, Err("locked validation context is required"))
    case Some(c) =>
      if c.status != Claimed then (l, Ok(()))
      else if c.attempts == 0 then (l.(calls := l.calls[ctx.key := LedgerFailed(c, PostValidationDrift, ZERO_CHARGE)]), Ok(()))
      else (l.(calls := l.calls[ctx.key := c.(cancelled := true)]), Ok(()))
  }

  function LedgerRecover(l: Ledger, ctx: Context, now: int): (Ledger, Result<()>) {
    match Locked(l, ctx)
    case None => (l, Err("locked validation context is required"))
    case Some(c) =>
      if c.status != Claimed || c.attempts != 1 || now < c.leaseExpires then (l, Err("expired validation attempt is not recoverable"))
      else (l.(calls := l.calls[ctx.key := LedgerFailed(c, ReasonCode.ValidatorUnavailable, c.request.terms.reserved)],
               grants := map a | a in l.grants && l.grants[a].key != ctx.key :: l.grants[a]), Ok(()))
  }

  function LedgerFail(l: Ledger, ctx: Context, f: Failure): (Ledger, Result<()>) {
    match Locked(l, ctx)
    case None => (l, Err("locked validation context is required"))
    case Some(c) =>
      if c.status != Claimed || c.attempts != 1 || f.context != ctx then (l, Err("validation call is not fail-able"))
      else
        var t := c.request.terms;
        var charge := if f.usage.None? then Ok(t.reserved)
                      else match TokenCost(f.usage.value.0, f.usage.value.1, t.prices)
                        case Err(e) => Err(e)
                        case Ok(cost) => Ok(Charge(f.usage.value.0, f.usage.value.1, cost));
        match charge
        case Err(e) => (l, Err(e))
        case Ok(amount) => (l.(calls := l.calls[ctx.key := LedgerFailed(c, f.reason, amount)]), Ok(()))
  }

  // ---- The object itself

  class ValidationCallLedger {
    var calls: map<CallKey, LedgerCall>
    var activeGrants: map<string, LedgerGrant>
    var nextCallId: nat
    var nextGrantId: nat
    var breakerOpen: bool
    var breakerEvents: nat

    function View(): Ledger
      reads this
    {
      Ledger(calls, activeGrants, nextCallId, nextGrantId, breakerOpen, breakerEvents)
    }

    constructor ()
      ensures View() == EMPTY
    {
      calls, activeGrants, nextCallId, nextGrantId, breakerOpen, breakerEvents := map[], map[], 1, 0, false, 0;
    }

    method ClaimOrReplay(request: Request, now: int, token: string) returns (r: Result<ClaimOutcome>)
      modifies this
      ensures (View(), r) == LedgerClaim(old(View()), request, now, token)
    {
      if !ReservationValid(request.terms) {
        return Err("validation reservation is invalid");
      }
      var expires := now + request.terms.timing.lease;
      if request.key !in calls {
        var id := nextCallId;
        calls := calls[request.key := LedgerCall(request, id, token, expires, 0, false, Claimed, [], None, None, false, 0, false)];
        nextCallId := id + 1;
        return Ok(ClaimOutcome(id, ClaimGranted(token, expires)));
      }
      var c := calls[request.key];
      if c.request != request {
        return Err("validation claim identity changed");
      }
      match c.status {
        case Completed =>
          return if c.projections == [] then Err("completed validation projection is unavailable")
                 else Ok(ClaimOutcome(c.id, ReplayedCompleted(c.projections)));
        case Failed =>
          return if c.reason.None? then Err("failed validation reason is unavailable")
                 else Ok(ClaimOutcome(c.id, ReplayedFailed(c.reason.value)));
        case Claimed =>
          if now < c.leaseExpires || c.attempts != 0 {
            return Ok(ClaimOutcome(c.id, Busy(c.leaseExpires)));
          }
          calls := calls[request.key := c.(token := token, leaseExpires := expires)];
          return Ok(ClaimOutcome(c.id, ClaimGranted(token, expires)));
      }
    }

    method MarkAttemptStarted(a: Admission, now: int, clock: int, commits: bool) returns (r: Result<LedgerGrant>)
      modifies this
      ensures (View(), r) == LedgerStart(old(View()), a, now, clock, commits)
    {
      var key := a.context.key;
      if key !in calls || calls[key].id != a.context.id || calls[key].token != a.context.token
         || calls[key].attempts != 0 || now >= calls[key].leaseExpires {
        return Err("validation attempt is not claimable");
      }
      var prior := calls[key];
      if !AdmissionMatches(prior.request.terms, a) {
        return Err("validation admission identity changed");
      }
      calls := calls[key := prior.(attempts := 1, leaseExpires := now + a.timing.lease)];
      if !commits {
        calls := calls[key := calls[key].(attempts := 0, leaseExpires := prior.leaseExpires)];
        assert calls == old(calls);
        return Err("commit failed");
      }
      var attempt := AttemptId(prior.token);
      var grant := LedgerGrant(nextGrantId, key, Permit(attempt, clock + a.timing.sendWindow, false, false, key));
      activeGrants := activeGrants[attempt := grant];
      nextGrantId := nextGrantId + 1;
      return Ok(grant);
    }

    method Dispatch(attempt: string, grant: nat, inv: Invocation, now: int, clock: int) returns (r: Result<CallKey>)
      modifies this
      ensures (View(), r) == LedgerDispatch(old(View()), attempt, grant, inv, now, clock)
    {
      if attempt !in activeGrants || activeGrants[attempt].id != grant || activeGrants[attempt].key !in calls {
        return Err("committed provider attempt grant is required");
      }
      var g := activeGrants[attempt];
      var c := calls[g.key];
      activeGrants := activeGrants - {attempt};
      if now >= c.leaseExpires || inv.contentHmac != c.request.terms.contentHmac || inv.characters != c.request.terms.characters
         || inv.framedIn != c.request.terms.framedIn || inv.maxOut != c.request.terms.maxOut {
        return Err("prepared validation dispatch changed");
      }
      var consumed := ConsumePermit(g.permit, clock);
      if consumed.Err? {
        return Err(consumed.reason);
      }
      calls := calls[g.key := c.(dispatched := true)];
      return Ok(g.key);
    }

    /** What the workflow's other calls were charged or have reserved. */
    method SiblingObligation(key: CallKey) returns (owed: nat)
      ensures owed == SumOver(Siblings(calls, key), LedgerOwedIn(calls))
    {
      owed := 0;
      var rest := set k | k in calls && k.workflow == key.workflow && k != key;
      assert rest == Siblings(calls, key);
      while rest != {}
        invariant rest <= calls.Keys
        invariant owed + SumOver(rest, LedgerOwedIn(calls)) == SumOver(Siblings(calls, key), LedgerOwedIn(calls))
        decreases rest
      {
        var k :| k in rest;
        SumOverRemove(rest, LedgerOwedIn(calls), k);
        owed := owed + LedgerOwed(calls[k]);
        rest := rest - {k};
      }
    }

    method Complete(ctx: Context, done: Completion, now: int) returns (r: Result<seq<Projection>>)
      modifies this
      ensures (View(), r) == LedgerComplete(old(View()), ctx, done, now)
    {
      hide SumOver;
      hide LedgerPrice;
      if ctx.key !in calls || calls[ctx.key].id != ctx.id || calls[ctx.key].token != ctx.token {
        return Err("locked validation context is required");
      }
      var c := calls[ctx.key];
      if c.status != Claimed || c.attempts != 1 || !c.dispatched || now >= c.leaseExpires || done.context != ctx {
        return Err("validation call is not completable");
      }
      var t := c.request.terms;
      var priced := LedgerPrice(t, done);
      if priced.Err? {
        return Err(priced.reason);
      }
      var p := priced.value;
      var owed := SiblingObligation(ctx.key);
      var obligation := p.charge.cost + owed;
      if p.charge.inTokens > t.maxInput || p.charge.outTokens > t.maxOut || p.charge.cost > t.reserved.cost
         || obligation > Min(MAX_VALIDATION_COST, t.ceilings.validation) || t.ceilings.extraction + obligation > t.ceilings.total {
        calls := calls[ctx.key := c.(status := Failed, reason := Some(ReasonCode.BudgetExceeded), charged := Some(p.charge),
                                     overrun := true, overrunCost := OverrunCost(p.charge.cost, t.reserved.cost))];
        if !breakerOpen {
          breakerOpen := true;
          breakerEvents := breakerEvents + 1;
        }
        return Ok([]);
      }
      if c.cancelled {
        calls := calls[ctx.key := c.(status := Failed, reason := Some(PostValidationDrift), charged := Some(p.charge))];
        return Ok([]);
      }
      var projections: seq<Projection> := [];
      for i := 0 to |p.ordered|
        invariant projections == ProjectionsOf(c.id, p.ordered[..i], p.charges[..i])
      {
        var item := p.ordered[i];
        projections := projections + [Projection(c.id, item.candidate.reviewItem, item.result, item.decision, item.reasons, p.charges[i], false)];
      }
      assert p.ordered[..|p.ordered|] == p.ordered && p.charges[..|p.ordered|] == p.charges;
      calls := calls[ctx.key := c.(status := Completed, projections := projections, charged := Some(p.charge))];
      return Ok(projections);
    }

    method Cancel(ctx: Context) returns (r: Result<()>)
      modifies this
      ensures (View(), r) == LedgerCancel(old(View()), ctx)
    {
      if ctx.key !in calls || calls[ctx.key].id != ctx.id || calls[ctx.key].token != ctx.token {
        return Err("locked validation context is required");
      }
      var c := calls[ctx.key];
      if c.status == Claimed {
        if c.attempts == 0 {
          c := c.(status := Failed, reason := Some(PostValidationDrift), charged := Some(ZERO_CHARGE));
        } else {
          c := c.(cancelled := true);
        }
        calls := calls[ctx.key := c];
      }
      return Ok(());
    }

    method RecoverExpired(ctx: Context, now: int) returns (r: Result<()>)
      modifies this
      ensures (View(), r) == LedgerRecover(old(View()), ctx, now)
    {
      if ctx.key !in calls || calls[ctx.key].id != ctx.id || calls[ctx.key].token != ctx.token {
        return Err("locked validation context is required");
      }
      var c := calls[ctx.key];
      if c.status != Claimed || c.attempts != 1 || now < c.leaseExpires {
        return Err("expired validation attempt is not recoverable");
      }
      var rest := activeGrants.Keys;
      while rest != {}
        invariant rest <= old(activeGrants).Keys
        invariant activeGrants == map a | a in old(activeGrants) && (a in rest || old(activeGrants)[a].key != ctx.key) :: old(activeGrants)[a]
        invariant calls == old(calls) && View() == old(View()).(grants := activeGrants)
        decreases rest
      {
        var a :| a in rest;
        if activeGrants[a].key == ctx.key {
          activeGrants := activeGrants - {a};
        }
        rest := rest - {a};
      }
      assert activeGrants == map a | a in old(activeGrants) && old(activeGrants)[a].key != ctx.key :: old(activeGrants)[a];
      calls := calls[ctx.key := c.(status := Failed, reason := Some(ReasonCode.ValidatorUnavailable), charged := Some(c.request.terms.reserved))];
      return Ok(());
    }

    method Fail(ctx: Context, f: Failure) returns (r: Result<()>)
      modifies this
      ensures (View(), r) == LedgerFail(old(View()), ctx, f)
    {
      if ctx.key !in calls || calls[ctx.key].id != ctx.id || calls[ctx.key].token != ctx.token {
        return Err("locked validation context is required");
      }
      var c := calls[ctx.key];
      if c.status != Claimed || c.attempts != 1 || f.context != ctx {
        return Err("validation call is not fail-able");
      }
      var charge := c.request.terms.reserved;
      if f.usage.Some? {
        var cost := TokenCost(f.usage.value.0, f.usage.value.1, c.request.terms.prices);
        if cost.Err? {
          return Err(cost.reason);
        }
        charge := Charge(f.usage.value.0, f.usage.value.1, cost.value);
      }
      calls := calls[ctx.key := c.(status := Failed, reason := Some(f.reason), charged := Some(charge))];
      return Ok(());
    }
  }
}
