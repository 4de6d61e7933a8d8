/** The in-memory ledger against the store: where nothing has drifted the two answer the same call
    the same way, charge it the same, and leave matching rows. */
module LedgerTwin {
  import opened Outcomes
  import opened Sorting
  import opened Sums
  import opened CostAllocation
  import opened AutoReviewPolicy
  import opened ValidationProtocol
  import opened CallRows
  import opened CallLaws
  import opened ValidationLedger

  /** The same call in both: identity, lease, attempt, status, charge, and what it answers. */
  ghost predicate Twins(d: Durable, l: Ledger, k: CallKey) {
    && k in d.calls && k in l.calls
    && var c, t := d.calls[k], l.calls[k];
    && t.request.key == k && c.terms == SortedTerms(t.request.terms) && c.id == t.id
    && c.leaseToken == Some(t.token) && c.leaseExpires == t.leaseExpires
    && c.attempts == t.attempts && c.status == t.status && c.charged == t.charged
    && (c.status == Failed ==> t.reason.Some? && FailedFor(c, t.reason.value))
    && (c.status == Completed ==> AllDecided(c.children) && t.projections == Projections(c.id, c.children, false))
  }

  /** Equal but for the mark that says where an answer came from. */
  predicate SameAnswer(a: ClaimOutcome, b: ClaimOutcome) {
    && a.callId == b.callId
    && match (a.kind, b.kind)
       case (ReplayedCompleted(p), ReplayedCompleted(q)) =>
         |p| == |q| && forall i :: 0 <= i < |p| ==> p[i].(cacheHit := q[i].cacheHit) == q[i]
       case (x, y) => x == y
  }

  lemma TermsKeepTiming(t: Terms)
    ensures SortedTerms(t) == t.(candidates := SortedTerms(t).candidates)
  {}

  lemma OpenTwinsAnswerClaims(d: Durable, l: Ledger, r: Request, env: Env)
    requires Twins(d, l, r.key) && l.calls[r.key].request == r && d.calls[r.key].status == Claimed
    requires MayClaim(d, r, env) && Undrifted(d, r.terms.safetyVersion, env)
    ensures var (d', a) := ClaimTx(d, r, env);
            var (l', b) := LedgerClaim(l, r, env.now, env.freshToken);
            a.Ok? && a == b && Twins(d', l', r.key)
  {
    hide MayClaim, Undrifted, ReservationValid, ClaimTx, SortedTerms, FailedFor, AllDecided, Projections;
    ReservationIsInNumbers(d, r, env);
    ClaimIsGrantedIff(d, r, env);
    ClaimIsBusyIff(d, r, env);
    OnlyGrantsChangeTables(d, r, env);
    TermsKeepTiming(r.terms);
    if IsGrant(ClaimTx(d, r, env).1) {
      GrantLeavesOneRow(d, r, env);
    }
  }

  lemma TerminalTwinsAnswerClaims(d: Durable, l: Ledger, r: Request, env: Env)
    requires Twins(d, l, r.key) && RowOkAt(d, r.key) && l.calls[r.key].request == r && d.calls[r.key].status != Claimed
    requires MayClaim(d, r, env)
    ensures var (d', a) := ClaimTx(d, r, env);
            var (l', b) := LedgerClaim(l, r, env.now, env.freshToken);
            a.Ok? && b.Ok? && SameAnswer(a.value, b.value) && d' == d && l' == l
  {
    hide MayClaim, ReservationValid, ClaimTx, SortedTerms, RowOk, FailedFor, AllDecided, Projections;
    ReservationIsInNumbers(d, r, env);
    TerminalCallIsReplayed(d, r, env);
    if d.calls[r.key].status == Completed {
      ReplayOkHasChildren(d.calls[r.key]);
    }
  }

  /** A claim of a known call: busy for both until the same moment, granted to both under the same
      token, or answered by both from the same terminal row. */
  lemma TwinsAnswerClaims(d: Durable, l: Ledger, r: Request, env: Env)
    requires Twins(d, l, r.key) && RowOkAt(d, r.key) && l.calls[r.key].request == r
    requires MayClaim(d, r, env) && Undrifted(d, r.terms.safetyVersion, env)
    ensures var (d', a) := ClaimTx(d, r, env);
            var (l', b) := LedgerClaim(l, r, env.now, env.freshToken);
            a.Ok? && b.Ok? && SameAnswer(a.value, b.value) && Twins(d', l', r.key)
  {
    hide Twins, MayClaim, Undrifted, ClaimTx, LedgerClaim, RowOk;
    TwinsAreThere(d, l, r.key);
    if d.calls[r.key].status == Claimed {
      OpenTwinsAnswerClaims(d, l, r, env);
      ClaimIsReplayedOnlyIfTerminal(d, r, env);
    } else {
      TerminalTwinsAnswerClaims(d, l, r, env);
    }
  }

  lemma TwinsAreThere(d: Durable, l: Ledger, k: CallKey)
    requires Twins(d, l, k)
    ensures k in d.calls && k in l.calls
  {}

  lemma ClaimIsReplayedOnlyIfTerminal(d: Durable, r: Request, env: Env)
    requires r.key in d.calls && d.calls[r.key].status == Claimed && ClaimTx(d, r, env).1.Ok?
    ensures var o := ClaimTx(d, r, env).1.value; !o.kind.ReplayedCompleted? && !o.kind.ReplayedFailed?
  {
    hide SortBy, ReservationValid;
  }

  lemma ReplayOkHasChildren(c: Call)
    requires RowOk(c) && AllDecided(c.children)
    ensures Projections(c.id, c.children, false) != [] && |Projections(c.id, c.children, true)| == |Projections(c.id, c.children, false)| == |c.children|
    ensures forall i :: 0 <= i < |c.children| ==>
              Projections(c.id, c.children, true)[i].(cacheHit := false) == Projections(c.id, c.children, false)[i]
  {}

  /** A due start that has not drifted is granted by both, and the attempt is recorded alike. */
  lemma TwinsStart(d: Durable, l: Ledger, a: Admission, env: Env, clock: int)
    requires Twins(d, l, a.context.key) && StartIsDue(d, a, env) && StartIsUndrifted(d, a, env)
    ensures var (d', x) := StartTx(d, a, env);
            var (l', y) := LedgerStart(l, a, env.now, clock, true);
            && x.Ok? && y.Ok? && y.value.permit == Permit(x.value.attempt, clock + x.value.sendWindow, false, false, a.context.key)
            && Twins(d', l', a.context.key)
  {
    StartIsGrantedIff(d, a, env);
    hide StartTx, StartIsUndrifted, FailedFor;
  }

  /** Failing in both for one reason and one charge. */
  lemma TwinsFailAlike(d: Durable, d': Durable, l: Ledger, l': Ledger, k: CallKey, reason: ReasonCode, charge: Charge, now: int)
    requires Twins(d, l, k) && FailedAs(d, d', k, reason, charge, now)
    requires k in l'.calls && l'.calls[k] == LedgerFailed(l.calls[k], reason, charge)
    ensures Twins(d', l', k)
  {
    SharesHaveChildren(d, d', k, reason, charge, now);
    hide FairlyShared, FailedFor;
  }

  lemma SharesHaveChildren(d: Durable, d': Durable, k: CallKey, reason: ReasonCode, charge: Charge, now: int)
    requires FailedAs(d, d', k, reason, charge, now)
    ensures FailedFor(d'.calls[k], reason)
  {}

  /** A call that may be closed is recovered by both under the same condition, at the same charge. */
  lemma TwinsRecover(d: Durable, l: Ledger, ctx: Context, env: Env)
    requires Twins(d, l, ctx.key) && RowOkAt(d, ctx.key) && CanClose(d, ctx, env)
    ensures var (d', x) := RecoverTx(d, ctx, env);
            var (l', y) := LedgerRecover(l, ctx, env.now);
            && (x.Ok? <==> y.Ok?) && (x.Err? ==> l' == l) && Twins(d', l', ctx.key)
  {
    RecoveryChargesTheReservation(d, ctx, env);
    LedgerHoldsToo(d, l, ctx);
    hide RecoverTx, RowOk, FailedAs, Twins, SortedTerms;
    var c := d.calls[ctx.key];
    var (d', x) := RecoverTx(d, ctx, env);
    if x.Ok? {
      TwinsFailAlike(d, d', l, LedgerRecover(l, ctx, env.now).0, ctx.key, ReasonCode.ValidatorUnavailable, c.terms.reserved, env.now);
    }
  }

  lemma LedgerHoldsToo(d: Durable, l: Ledger, ctx: Context)
    requires Twins(d, l, ctx.key) && Holds(d, ctx)
    ensures Locked(l, ctx) == Some(l.calls[ctx.key])
    ensures var c, t := d.calls[ctx.key], l.calls[ctx.key];
            && t.status == c.status && t.attempts == c.attempts && t.leaseExpires == c.leaseExpires
            && t.request.terms.reserved == c.terms.reserved
  {
    TermsKeepTiming(l.calls[ctx.key].request.terms);
  }

  /** An attempt that never started is cancelled by both, uncharged. One that did is left open by both,
      but the ledger remembers the wish. */
  lemma TwinsCancel(d: Durable, l: Ledger, ctx: Context, env: Env)
    requires Twins(d, l, ctx.key) && RowOkAt(d, ctx.key) && CanClose(d, ctx, env)
    ensures var (d', x) := CancelTx(d, ctx, env);
            var (l', y) := LedgerCancel(l, ctx);
            && x.Ok? && y.Ok? && Twins(d', l', ctx.key)
            && (l'.calls[ctx.key].cancelled <==>
                l.calls[ctx.key].cancelled || (d.calls[ctx.key].status == Claimed && d.calls[ctx.key].attempts != 0))
  {
    CancellationIsUncharged(d, ctx, env);
    LedgerHoldsToo(d, l, ctx);
    hide CancelTx, RowOk, FailedAs, SortedTerms, FailedFor, AllDecided, Projections;
    if d.calls[ctx.key].status == Claimed && d.calls[ctx.key].attempts == 0 {
      hide Twins;
      TwinsFailAlike(d, CancelTx(d, ctx, env).0, l, LedgerCancel(l, ctx).0, ctx.key, PostValidationDrift, ZERO_CHARGE, env.now);
    }
  }

  /** A due failure is recorded by both for the same reason and at the same charge; only the store
      flags a charge beyond the reservation. */
  lemma TwinsFail(d: Durable, v: Volatile, l: Ledger, ctx: Context, f: Failure, env: Env, charge: Charge)
    requires Twins(d, l, ctx.key) && RowOkAt(d, ctx.key) && FailureIsDue(d, ctx, f, env)
    requires if f.usage.None? then charge == d.calls[ctx.key].terms.reserved
             else charge.inTokens == f.usage.value.0 && charge.outTokens == f.usage.value.1 && PricedUp(charge, d.calls[ctx.key].terms.prices)
    ensures var (d', _, x) := FailTx(d, v, ctx, f, env);
            var (l', y) := LedgerFail(l, ctx, f);
            && x.Ok? && y.Ok? && Twins(d', l', ctx.key) && !l'.calls[ctx.key].overrun == !l.calls[ctx.key].overrun
  {
    var c := d.calls[ctx.key];
    DueFailure(d, v, ctx, f, env, charge);
    PriceIsRoundedUp(charge.inTokens, charge.outTokens, charge.cost, c.terms.prices);
    TermsKeepTiming(l.calls[ctx.key].request.terms);
    TwinsFailAlike(d, FailTx(d, v, ctx, f, env).0, l, LedgerFail(l, ctx, f).0, ctx.key, f.reason, charge, env.now);
    hide FailTx, RowOk, FairlyShared, TokenCost, PricedUp, FailedFor, SortedTerms;
  }

  /** A completion both can take - due, within both budgets, undrifted, not cancelled, every decision
      reasoned and every slot in place - completes both with the same projections. */
  lemma TwinsComplete(d: Durable, v: Volatile, l: Ledger, ctx: Context, done: Completion, env: Env, charge: Charge)
    requires Twins(d, l, ctx.key) && RowOkAt(d, ctx.key) && CompletionIsDue(d, v, ctx, done, env)
    requires charge.inTokens == done.inTokens && charge.outTokens == done.outTokens && PricedUp(charge, d.calls[ctx.key].terms.prices)
    requires !BeyondBudget(d, ctx.key, charge, env) && CompletionIsUndrifted(d, v, ctx, env) && AllReasoned(done.candidates)
    requires l.calls[ctx.key].dispatched && !l.calls[ctx.key].cancelled && SlotsMatch(SortBy(CompletionLe, done.candidates))
    requires !LedgerOverruns(l, ctx.key, l.calls[ctx.key].request.terms, charge)
    ensures var (d', _, x) := CompleteTx(d, v, ctx, done, env);
            var (l', y) := LedgerComplete(l, ctx, done, env.now);
            x.Ok? && x.value != [] && y == x && Twins(d', l', ctx.key)
  {
    hide FairlyShared, PricedUp, BeyondBudget, CompletionIsUndrifted, AllReasoned, RowOk, SortBy, LedgerOverruns, CompleteTx, SortedTerms, SlotsMatch,
      CompleteCharged, CompletedChildren, GuardsHold, Overruns;
    var c, t := d.calls[ctx.key], l.calls[ctx.key];
    DueCompletion(d, v, ctx, done, env, charge);
    DueIsPriced(d, v, ctx, done, env, charge);
    OkRowsHaveChildren(c);
    PricesAgree(c, t, done, env.now, charge);
    var p := LedgerPrice(t.request.terms, done).value;
    BudgetInNumbers(d, ctx.key, charge, env);
    DriftInTwoParts(d, v, ctx, env);
    ReasonedInOrder(done);
    DecidedChildren(c.children, p.ordered, p.charges);
    ChargedCompletes(d, v, ctx, c, p.ordered, charge, p.charges, env);
    var c' := CompleteTx(d, v, ctx, done, env).0.calls[ctx.key];
    OrderedAreTheChildren(c, done, env.now);
    ProjectionsAgree(c, c', p.ordered, p.charges);
    hide PriceCompletion, LedgerPrice, CompletionIsDue, CompletedAs;
  }

  lemma OrderedAreTheChildren(c: Call, done: Completion, now: int)
    requires PriceCompletion(c, done, now).Ok?
    ensures CandidatesOf(PriceCompletion(c, done, now).value.ordered) == ChildCandidates(c.children)
  {
    hide ChildCharges, TokenCost;
  }

  lemma PricesAgree(c: Call, t: LedgerCall, done: Completion, now: int, charge: Charge)
    requires RowOk(c) && c.terms == SortedTerms(t.request.terms)
    requires PriceCompletion(c, done, now).Ok? && PriceCompletion(c, done, now).value.charge == charge
    requires SlotsMatch(SortBy(CompletionLe, done.candidates))
    ensures LedgerPrice(t.request.terms, done) == PriceCompletion(c, done, now)
  {
    hide SortBy, AllocateMicroUsd, TokenCost, SlotsMatch;
    TermsKeepTiming(t.request.terms);
    var ordered := SortBy(CompletionLe, done.candidates);
    assert CandidatesOf(ordered) == ChildCandidates(c.children);
    assert ChildCandidates(c.children) == c.terms.candidates;
    assert |ordered| == |CandidatesOf(ordered)| == |c.children|;
    forall i | 0 <= i < |ordered| ensures ordered[i].candidate == c.children[i].candidate {
      assert CandidatesOf(ordered)[i] == ChildCandidates(c.children)[i];
    }
    assert CompletionKeys(ordered) == KeysOf(c.children);
    hide SortedTerms, RowOk;
  }

  lemma ProjectionsAgree(c: Call, c': Call, ordered: seq<CandidateCompletion>, charges: seq<Charge>)
    requires |ordered| == |charges| == |c.children| && SlotsMatch(ordered)
    requires CandidatesOf(ordered) == ChildCandidates(c.children)
    requires c'.children == CompletedChildren(c.children, ordered, charges) && AllDecided(c'.children) && c'.id == c.id
    ensures Projections(c'.id, c'.children, false) == ProjectionsOf(c.id, ordered, charges)
  {
    forall i | 0 <= i < |ordered|
      ensures ProjectionOf(c'.id, c'.children[i], i, false) == ProjectionsOf(c.id, ordered, charges)[i]
    {
      assert CandidatesOf(ordered)[i] == ChildCandidates(c.children)[i];
    }
    hide CompletedChildren;
  }
}
