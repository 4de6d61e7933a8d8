/** The exact outcome of every operation of the in-memory ledger, in terms of its rows and grants. */
module LedgerLaws {
  import opened Outcomes
  import opened Sorting
  import opened Sums
  import opened CostAllocation
  import opened AutoReviewPolicy
  import opened ValidationProtocol
  import opened CallRows
  import opened CallLaws
  import opened ValidationLedger

  /** On its own the ledger grants a claim to any reservation that stands, if the call is new, or is the
      same one, open, unstarted and past its lease; no budget is asked. */
  lemma LedgerGrantsIff(l: Ledger, r: Request, now: int, token: string)
    ensures var (l', o) := LedgerClaim(l, r, now, token);
            && (IsGrant(o) <==>
                && ReservationStands(r.terms)
                && (r.key in l.calls ==>
                    var c := l.calls[r.key]; c.request == r && c.status == Claimed && c.attempts == 0 && now >= c.leaseExpires))
            && (!IsGrant(o) ==> l' == l)
            && (IsGrant(o) ==>
                && r.key in l'.calls && l'.calls == l.calls[r.key := l'.calls[r.key]]
                && l' == l.(calls := l'.calls, nextCall := l.nextCall + if r.key in l.calls then 0 else 1)
                && var c := l'.calls[r.key];
                && o.value == ClaimOutcome(c.id, ClaimGranted(token, now + r.terms.timing.lease))
                && c.token == token && c.leaseExpires == now + r.terms.timing.lease
                && if r.key in l.calls then c == l.calls[r.key].(token := token, leaseExpires := c.leaseExpires)
                   else c.request == r && c.id == l.nextCall && c.status == Claimed && c.attempts == 0 && !c.dispatched
                        && c.charged == None && !c.overrun && !c.cancelled)
  {
    ValidIffStands(r.terms);
    hide ReservationValid, ReservationStands;
  }

  /** A claim of a row that stands is busy exactly while the lease runs or once an attempt was made. */
  lemma LedgerIsBusyIff(l: Ledger, r: Request, now: int, token: string)
    ensures var o := LedgerClaim(l, r, now, token).1;
            && (IsBusy(o) <==>
                && ReservationStands(r.terms) && r.key in l.calls
                && var c := l.calls[r.key]; c.request == r && c.status == Claimed && (c.attempts != 0 || now < c.leaseExpires))
            && (IsBusy(o) ==> o.value == ClaimOutcome(l.calls[r.key].id, Busy(l.calls[r.key].leaseExpires)))
  {
    ValidIffStands(r.terms);
    hide ReservationValid, ReservationStands;
  }

  predicate LedgerHolds(l: Ledger, ctx: Context) {
    ctx.key in l.calls && l.calls[ctx.key].id == ctx.id && l.calls[ctx.key].token == ctx.token
  }

  /** Only row `k` differs, as given; grants and counters stay. */
  predicate RowBecomes(l: Ledger, l': Ledger, k: CallKey, c: LedgerCall) { l' == l.(calls := l.calls[k := c]) }

  /** A start passes exactly with the current lease token under its lease, before any attempt, for the
      admitted terms, and if its commit does; it then holds the one new grant. The status is not asked. */
  lemma LedgerStartsIff(l: Ledger, a: Admission, now: int, clock: int, commits: bool)
    ensures var (l', g) := LedgerStart(l, a, now, clock, commits); var k := a.context.key;
            && (g.Ok? <==>
                && commits && LedgerHolds(l, a.context) && l.calls[k].attempts == 0 && now < l.calls[k].leaseExpires
                && var t := l.calls[k].request.terms;
                && a.contentHmac == t.contentHmac && a.characters == t.characters && a.framedIn == t.framedIn && a.maxOut == t.maxOut
                && a.reservedCost == t.reserved.cost && a.keyIdentity == t.keyIdentity && a.timing == t.timing)
            && (g.Err? ==> l' == l)
            && (g.Ok? ==>
                && l'.calls == l.calls[k := l.calls[k].(attempts := 1, leaseExpires := now + l.calls[k].request.terms.timing.lease)]
                && g.value == LedgerGrant(l.nextGrant, k, Permit(a.context.token + ":attempt:1", clock + a.timing.sendWindow, false, false, k))
                && l'.grants == l.grants[a.context.token + ":attempt:1" := g.value] && l'.nextGrant == l.nextGrant + 1
                && l'.nextCall == l.nextCall && l'.breakerOpen == l.breakerOpen && l'.breakerEvents == l.breakerEvents)
  {}

  /** A dispatch passes exactly for a held grant under the lease, with the claimed invocation and a good
      permit; it spends the grant whether it passes or not, unless it does not hold it. */
  lemma LedgerDispatchesIff(l: Ledger, attempt: string, grant: nat, inv: Invocation, now: int, clock: int)
    ensures var (l', sent) := LedgerDispatch(l, attempt, grant, inv, now, clock);
            var held := attempt in l.grants && l.grants[attempt].id == grant && l.grants[attempt].key in l.calls;
            && (sent.Ok? <==>
                && held
                && var g := l.grants[attempt]; var c := l.calls[g.key];
                && now < c.leaseExpires && inv.contentHmac == c.request.terms.contentHmac && inv.characters == c.request.terms.characters
                && inv.framedIn == c.request.terms.framedIn && inv.maxOut == c.request.terms.maxOut
                && !g.permit.consumed && !g.permit.invalidated && clock < g.permit.deadline)
            && (sent.Ok? ==> sent.value == l.grants[attempt].key)
            && l' == (if !held then l
                      else if sent.Err? then l.(grants := l.grants - {attempt})
                      else l.(grants := l.grants - {attempt},
                              calls := l.calls[l.grants[attempt].key := l.calls[l.grants[attempt].key].(dispatched := true)]))
  {}

  /** A dispatched attempt under its lease, completed for the call's own candidates in their slots. */
  ghost predicate LedgerCompletionIsDue(l: Ledger, ctx: Context, done: Completion, now: int) {
    && done.context == ctx && LedgerHolds(l, ctx)
    && var c := l.calls[ctx.key];
    var ordered := SortBy(CompletionLe, done.candidates);
    && c.status == Claimed && c.attempts == 1 && c.dispatched && now < c.leaseExpires
    && CandidatesOf(ordered) == SortBy(CandidateLe, c.request.terms.candidates) && ordered != []
    && (forall i :: 0 <= i < |ordered| ==> ordered[i].result.slot == i + 1)
    && done.inTokens >= 0 && done.outTokens >= 0
  }

  /** An open call owes its reservation, a settled one its charge. */
  ghost function Owes(calls: map<CallKey, LedgerCall>): CallKey -> nat {
    k => if k !in calls then 0
         else if calls[k].status == Claimed then calls[k].request.terms.reserved.cost
         else calls[k].charged.GetOr(calls[k].request.terms.reserved).cost
  }

  /** Beyond the caps of the request, or the workflow's other calls and this one beyond a ceiling. */
  ghost predicate LedgerBeyondBudget(l: Ledger, key: CallKey, charge: Charge)
    requires key in l.calls
  {
    var t := l.calls[key].request.terms;
    var others := set k | k in l.calls && k.workflow == key.workflow && k != key;
    var obligation := charge.cost + SumOver(others, Owes(l.calls));
    || charge.inTokens > t.maxInput || charge.outTokens > t.maxOut || charge.cost > t.reserved.cost
    || obligation > 97_728 || obligation > t.ceilings.validation || t.ceilings.extraction + obligation > t.ceilings.total
  }

  /** The three ways of a due completion in the ledger: an overrun is recorded and opens the breaker, a
      wish to cancel is granted, or every candidate gets its result, decision and share, in key order. */
  lemma LedgerDueCompletion(l: Ledger, ctx: Context, done: Completion, now: int, charge: Charge)
    requires LedgerCompletionIsDue(l, ctx, done, now)
    requires charge.inTokens == done.inTokens && charge.outTokens == done.outTokens
    requires PricedUp(charge, l.calls[ctx.key].request.terms.prices)
    ensures var (l', r) := LedgerComplete(l, ctx, done, now);
            var c, t := l.calls[ctx.key], l.calls[ctx.key].request.terms;
            var ordered := SortBy(CompletionLe, done.candidates);
            if LedgerBeyondBudget(l, ctx.key, charge) then
              && r == Ok([])
              && l' == l.(breakerOpen := true, breakerEvents := l.breakerEvents + (if l.breakerOpen then 0 else 1), calls := l.calls[ctx.key :=
                   c.(status := Failed, reason := Some(ReasonCode.BudgetExceeded), charged := Some(charge), overrun := true,
                      overrunCost := if charge.cost > t.reserved.cost then charge.cost - t.reserved.cost else 0)])
            else if c.cancelled then
              r == Ok([]) && RowBecomes(l, l', ctx.key, c.(status := Failed, reason := Some(PostValidationDrift), charged := Some(charge)))
            else
              && r.Ok? && RowBecomes(l, l', ctx.key, c.(status := Completed, projections := r.value, charged := Some(charge)))
              && |r.value| == |ordered|
              && (forall i :: 0 <= i < |ordered| ==>
                   r.value[i] == Projection(c.id, ordered[i].candidate.reviewItem, ordered[i].result, ordered[i].decision, ordered[i].reasons,
                                            r.value[i].charge, false))
              && SharesAddUp(r.value, charge)
  {
    hide SortBy, LedgerOverruns, SumOver, PricedUp;
    var t := l.calls[ctx.key].request.terms;
    LedgerPriceIs(t, done, charge);
    LedgerBudgetInNumbers(l, ctx.key, charge);
    var p := LedgerPrice(t, done).value;
    hide LedgerPrice, LedgerBeyondBudget;
    SharesOfProjections(l.calls[ctx.key].id, p.ordered, p.charges, charge);
  }

  /** Tokens and cost of the projections are those of the call. */
  predicate SharesAddUp(p: seq<Projection>, charge: Charge) {
    && Sum(seq(|p|, i requires 0 <= i < |p| => p[i].charge.inTokens)) == charge.inTokens
    && Sum(seq(|p|, i requires 0 <= i < |p| => p[i].charge.outTokens)) == charge.outTokens
    && Sum(seq(|p|, i requires 0 <= i < |p| => p[i].charge.cost)) == charge.cost
  }

  predicate ChargesAddUp(charges: seq<Charge>, charge: Charge) {
    && Sum(seq(|charges|, i requires 0 <= i < |charges| => charges[i].inTokens)) == charge.inTokens
    && Sum(seq(|charges|, i requires 0 <= i < |charges| => charges[i].outTokens)) == charge.outTokens
    && Sum(seq(|charges|, i requires 0 <= i < |charges| => charges[i].cost)) == charge.cost
  }

  lemma SharesOfProjections(id: nat, ordered: seq<CandidateCompletion>, charges: seq<Charge>, charge: Charge)
    requires |ordered| == |charges| && ChargesAddUp(charges, charge)
    ensures SharesAddUp(ProjectionsOf(id, ordered, charges), charge)
  {
    var p := ProjectionsOf(id, ordered, charges);
    assert seq(|p|, i requires 0 <= i < |p| => p[i].charge.inTokens) == seq(|charges|, i requires 0 <= i < |charges| => charges[i].inTokens);
    assert seq(|p|, i requires 0 <= i < |p| => p[i].charge.outTokens) == seq(|charges|, i requires 0 <= i < |charges| => charges[i].outTokens);
    assert seq(|p|, i requires 0 <= i < |p| => p[i].charge.cost) == seq(|charges|, i requires 0 <= i < |charges| => charges[i].cost);
  }

  lemma LedgerPriceIs(t: Terms, done: Completion, charge: Charge)
    requires var ordered := SortBy(CompletionLe, done.candidates);
             && CandidatesOf(ordered) == SortBy(CandidateLe, t.candidates) && ordered != []
             && (forall i :: 0 <= i < |ordered| ==> ordered[i].result.slot == i + 1)
    requires charge.inTokens == done.inTokens && charge.outTokens == done.outTokens && PricedUp(charge, t.prices)
    ensures var p := LedgerPrice(t, done);
            && p.Ok? && p.value.ordered == SortBy(CompletionLe, done.candidates) && p.value.charge == charge
            && ChargesAddUp(p.value.charges, charge)
  {
    hide AllocateMicroUsd, SortBy, CandidateLe, CompletionLe, TokenCost, PricedUp, Sum, ChargesAddUp, ZipCharges;
    var ordered := SortBy(CompletionLe, done.candidates);
    PriceIsRoundedUp(done.inTokens, done.outTokens, charge.cost, t.prices);
    SplitAddsUp(charge, |ordered|, t.prices, CompletionKeys(ordered));
    assert CandidatesOf(ordered) == SortedTerms(t).candidates && SlotsMatch(ordered);
    hide SortedTerms, CandidatesOf, SlotsMatch;
  }

  lemma SplitAddsUp(charge: Charge, n: nat, prices: Prices, keys: seq<string>)
    requires n > 0 && |keys| == n && PricedUp(charge, prices)
    ensures var inputs, outputs := AllocateTokens(charge.inTokens, n), AllocateTokens(charge.outTokens, n);
            && inputs.Ok? && outputs.Ok?
            && var costs := AllocateMicroUsd(inputs.value, outputs.value, prices, charge.cost, keys);
            && costs.Ok? && |costs.value| == n && ChargesAddUp(ZipCharges(inputs.value, outputs.value, costs.value), charge)
  {
    PriceIsRoundedUp(charge.inTokens, charge.outTokens, charge.cost, prices);
    ExactCostSplit(charge.inTokens, charge.outTokens, n, prices, keys);
    var inputs, outputs := AllocateTokens(charge.inTokens, n).value, AllocateTokens(charge.outTokens, n).value;
    var costs := AllocateMicroUsd(inputs, outputs, prices, charge.cost, keys).value;
    var charges := ZipCharges(inputs, outputs, costs);
    assert seq(|charges|, i requires 0 <= i < |charges| => charges[i].inTokens) == inputs;
    assert seq(|charges|, i requires 0 <= i < |charges| => charges[i].outTokens) == outputs;
    assert seq(|charges|, i requires 0 <= i < |charges| => charges[i].cost) == costs;
  }

  lemma LedgerBudgetInNumbers(l: Ledger, key: CallKey, charge: Charge)
    requires key in l.calls
    ensures LedgerBeyondBudget(l, key, charge) <==> LedgerOverruns(l, key, l.calls[key].request.terms, charge)
  {
    hide SumOver;
    var others := set k | k in l.calls && k.workflow == key.workflow && k != key;
    assert Siblings(l.calls, key) == others;
    SumOverSame(others, Owes(l.calls), LedgerOwedIn(l.calls));
  }

  lemma LedgerCompletionThatIsNotDue(l: Ledger, ctx: Context, done: Completion, now: int)
    requires !LedgerCompletionIsDue(l, ctx, done, now)
    ensures LedgerComplete(l, ctx, done, now).0 == l && LedgerComplete(l, ctx, done, now).1.Err?
  {
    hide AllocateMicroUsd, SortBy, LedgerOverruns;
    if LedgerHolds(l, ctx) {
      var ordered := SortBy(CompletionLe, done.candidates);
      assert |CandidatesOf(ordered)| == |ordered|;
    }
  }

  /** Cancelling settles an attempt that never started, uncharged, and marks one that did. */
  lemma LedgerCancels(l: Ledger, ctx: Context)
    ensures var (l', r) := LedgerCancel(l, ctx);
            && (r.Ok? <==> LedgerHolds(l, ctx))
            && (!LedgerHolds(l, ctx) || l.calls[ctx.key].status != Claimed ==> l' == l)
            && (LedgerHolds(l, ctx) && l.calls[ctx.key].status == Claimed ==>
                var c := l.calls[ctx.key];
                RowBecomes(l, l', ctx.key, if c.attempts == 0 then c.(status := Failed, reason := Some(PostValidationDrift), charged := Some(Charge(0, 0, 0)))
                                           else c.(cancelled := true)))
  {}

  /** Recovery charges the reservation of an attempt whose lease ran out, and drops its grants. */
  lemma LedgerRecovers(l: Ledger, ctx: Context, now: int)
    ensures var (l', r) := LedgerRecover(l, ctx, now);
            && (r.Ok? <==> LedgerHolds(l, ctx) && l.calls[ctx.key].status == Claimed && l.calls[ctx.key].attempts == 1
                           && now >= l.calls[ctx.key].leaseExpires)
            && (r.Err? ==> l' == l)
            && (r.Ok? ==>
                var c := l.calls[ctx.key];
                && l'.calls == l.calls[ctx.key := c.(status := Failed, reason := Some(ReasonCode.ValidatorUnavailable), charged := Some(c.request.terms.reserved))]
                && (forall a :: a in l'.grants <==> a in l.grants && l.grants[a].key != ctx.key)
                && (forall a :: a in l'.grants ==> l'.grants[a] == l.grants[a])
                && l' == l.(calls := l'.calls, grants := l'.grants))
  {}

  /** A failure of the open attempt is charged its usage, or the reservation if none is known. */
  lemma LedgerFails(l: Ledger, ctx: Context, f: Failure, charge: Charge)
    requires LedgerHolds(l, ctx)
    requires if f.usage.None? then charge == l.calls[ctx.key].request.terms.reserved
             else charge.inTokens == f.usage.value.0 && charge.outTokens == f.usage.value.1 && PricedUp(charge, l.calls[ctx.key].request.terms.prices)
    ensures var (l', r) := LedgerFail(l, ctx, f); var c := l.calls[ctx.key];
            && (r.Ok? <==> f.context == ctx && c.status == Claimed && c.attempts == 1)
            && (r.Err? ==> l' == l)
            && (r.Ok? ==> RowBecomes(l, l', ctx.key, c.(status := Failed, reason := Some(f.reason), charged := Some(charge))))
  {
    PriceIsRoundedUp(charge.inTokens, charge.outTokens, charge.cost, l.calls[ctx.key].request.terms.prices);
    hide TokenCost, PricedUp;
  }

  lemma LedgerFailureWithoutRow(l: Ledger, ctx: Context, f: Failure)
    ensures !LedgerHolds(l, ctx) || (f.usage.Some? && (f.usage.value.0 < 0 || f.usage.value.1 < 0)) ==>
            LedgerFail(l, ctx, f).0 == l && LedgerFail(l, ctx, f).1.Err?
  {}
}
