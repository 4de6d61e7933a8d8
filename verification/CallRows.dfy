/** What one transaction can do to the call table and to the breaker, and the row invariants every
    transaction keeps. */
module CallRows {
  import opened Outcomes
  import opened Sorting
  import opened Sums
  import opened CostAllocation
  import opened AutoReviewPolicy
  import opened ValidationProtocol

  function InTokens(children: seq<Child>): seq<nat> {
    seq(|children|, i requires 0 <= i < |children| => children[i].charge.inTokens)
  }

  function OutTokens(children: seq<Child>): seq<nat> {
    seq(|children|, i requires 0 <= i < |children| => children[i].charge.outTokens)
  }

  function Costs(children: seq<Child>): seq<nat> {
    seq(|children|, i requires 0 <= i < |children| => children[i].charge.cost)
  }

  /** Tokens and cost of the children add up to what the call was charged. */
  predicate Conserves(c: Call) {
    Charge(Sum(InTokens(c.children)), Sum(OutTokens(c.children)), Sum(Costs(c.children))) == c.charged.GetOr(ZERO_CHARGE)
  }

  predicate SameCandidates(c: Call) {
    && |c.children| == |c.terms.candidates|
    && forall i :: 0 <= i < |c.children| ==> c.children[i].candidate == c.terms.candidates[i]
  }

  /** The row invariant: the check constraints of the call table, its reservation arithmetic, and
      children that stay open exactly as long as their call. */
  predicate RowOk(c: Call) {
    && c.attempts <= 1
    && c.terms.candidates != [] && SameCandidates(c)
    && 0 < c.terms.reserved.inTokens == c.terms.framedIn && c.terms.reserved.outTokens == c.terms.maxOut
    && TokenCost(c.terms.reserved.inTokens, c.terms.reserved.outTokens, c.terms.prices) == Ok(c.terms.reserved.cost)
    && (c.status == Claimed ==>
        && c.charged.None? && c.terminalAt.None? && !c.overrun
        && forall i :: 0 <= i < |c.children| ==> c.children[i].status == Claimed && c.children[i].charge == ZERO_CHARGE)
    && (c.status != Claimed ==> c.charged.Some? && c.terminalAt.Some?)
    && (c.status == Completed ==> c.attempts == 1 && !c.overrun && AllDecided(c.children))
    && (c.status == Failed && c.attempts == 0 ==> c.charged == Some(ZERO_CHARGE) && !c.overrun)
  }

  predicate RowOkAt(d: Durable, k: CallKey) {
    k in d.calls ==> RowOk(d.calls[k])
  }

  ghost predicate RowsOk(d: Durable) {
    forall k :: k in d.calls ==> RowOkAt(d, k)
  }

  // ---- The five ways a row changes

  /** A new row, claimed within the workflow's budget under the current safety version. */
  ghost predicate Inserts(d: Durable, d': Durable, k: CallKey) {
    && k !in d.calls && k in d'.calls && k.workflow in d.workflows && !d.workflows[k.workflow].cancelled
    && d'.calls == d.calls[k := d'.calls[k]]
    && var c := d'.calls[k];
    && c.status == Claimed && c.attempts == 0 && Conserves(c)
    && d.safety.Some? && !d.safety.value.open && c.terms.safetyVersion == d.safety.value.version
    && |CallsOf(d.calls, k.workflow)| < d.workflows[k.workflow].terms.maxBatches
    && CandidateTotal(d.calls, k.workflow) + |c.terms.candidates| <= d.workflows[k.workflow].terms.maxCandidates
    && c.terms.reserved.cost + Obligation(d.calls, k.workflow) <= ValidationCeiling(d.workflows[k.workflow])
  }

  ghost predicate Rewrites(d: Durable, d': Durable, k: CallKey) {
    && k in d.calls && k in d'.calls && d'.calls == d.calls[k := d'.calls[k]]
    && d.calls[k].status == Claimed
    && d'.calls[k].id == d.calls[k].id && d'.calls[k].terms == d.calls[k].terms
  }

  /** A fresh lease on an attempt that never started. */
  ghost predicate Releases(d: Durable, d': Durable, k: CallKey) {
    && Rewrites(d, d', k)
    && d.calls[k].attempts == 0
    && d'.calls[k] == d.calls[k].(leaseToken := d'.calls[k].leaseToken, leaseExpires := d'.calls[k].leaseExpires)
  }

  ghost predicate Starts(d: Durable, d': Durable, k: CallKey) {
    && Rewrites(d, d', k)
    && d.calls[k].attempts == 0
    && d'.calls[k] == d.calls[k].(attempts := 1, startedAt := d'.calls[k].startedAt, leaseExpires := d'.calls[k].leaseExpires)
    && d.safety.Some? && !d.safety.value.open && d.calls[k].terms.safetyVersion == d.safety.value.version
  }

  /** The call and all its children leave the claimed state together. A charge above the
      reservation is flagged, and a flag leaves the breaker open. */
  ghost predicate Settles(d: Durable, d': Durable, k: CallKey) {
    && Rewrites(d, d', k)
    && var c, c' := d.calls[k], d'.calls[k];
    && c'.status != Claimed && c'.attempts == c.attempts && c'.charged.Some?
    && (c'.charged.value.cost > c.terms.reserved.cost ==> c'.overrun)
    && (c'.overrun ==> d'.safety.Some? && d'.safety.value.open)
    && (c'.status == Completed ==> d.safety.Some? && !d.safety.value.open && d.safety.value.version == c.terms.safetyVersion)
  }

  ghost predicate BreakerKept(d: Durable, d': Durable) {
    d'.safety == d.safety && d'.events == d.events
  }

  ghost predicate BreakerOpened(d: Durable, d': Durable) {
    d.safety.Some? && !d.safety.value.open && d'.safety == OpenBudgetBreaker(d).safety && d'.events == OpenBudgetBreaker(d).events
  }

  // ---- Settlement keeps the row invariant and conserves the charge

  lemma {:induction false} SumsOfNewChildren(candidates: seq<Candidate>)
    ensures var cs := NewChildren(candidates);
            Sum(InTokens(cs)) == 0 && Sum(OutTokens(cs)) == 0 && Sum(Costs(cs)) == 0
  {
    var cs := NewChildren(candidates);
    SumOfZeros(InTokens(cs));
    SumOfZeros(OutTokens(cs));
    SumOfZeros(Costs(cs));
  }

  lemma ChildChargesConserve(t: Terms, children: seq<Child>, charge: Charge)
    requires children != [] && TokenCost(charge.inTokens, charge.outTokens, t.prices) == Ok(charge.cost)
    ensures var r := ChildCharges(t, children, charge);
            && r.Ok? && |r.value| == |children|
            && Sum(seq(|children|, i requires 0 <= i < |children| => r.value[i].inTokens)) == charge.inTokens
            && Sum(seq(|children|, i requires 0 <= i < |children| => r.value[i].outTokens)) == charge.outTokens
            && Sum(seq(|children|, i requires 0 <= i < |children| => r.value[i].cost)) == charge.cost
  {
    ExactCostSplit(charge.inTokens, charge.outTokens, |children|, t.prices, KeysOf(children));
    var inputs := AllocateTokens(charge.inTokens, |children|).value;
    var outputs := AllocateTokens(charge.outTokens, |children|).value;
    var costs := AllocateMicroUsd(inputs, outputs, t.prices, charge.cost, KeysOf(children)).value;
    var r := ChildCharges(t, children, charge).value;
    assert seq(|children|, i requires 0 <= i < |children| => r[i].inTokens) == inputs;
    assert seq(|children|, i requires 0 <= i < |children| => r[i].outTokens) == outputs;
    assert seq(|children|, i requires 0 <= i < |children| => r[i].cost) == costs;
  }

  lemma ChargedChildrenConserve(t: Terms, children: seq<Child>, charge: Charge, after: seq<Child>)
    requires children != [] && TokenCost(charge.inTokens, charge.outTokens, t.prices) == Ok(charge.cost)
    requires |after| == |children| && ChildCharges(t, children, charge).Ok?
    requires forall i :: 0 <= i < |after| ==> after[i].charge == ChildCharges(t, children, charge).value[i]
    ensures Sum(InTokens(after)) == charge.inTokens && Sum(OutTokens(after)) == charge.outTokens && Sum(Costs(after)) == charge.cost
  {
    ChildChargesConserve(t, children, charge);
    var r := ChildCharges(t, children, charge).value;
    assert InTokens(after) == seq(|children|, i requires 0 <= i < |children| => r[i].inTokens);
    assert OutTokens(after) == seq(|children|, i requires 0 <= i < |children| => r[i].outTokens);
    assert Costs(after) == seq(|children|, i requires 0 <= i < |children| => r[i].cost);
  }

  /** A terminal failure never refuses a well-priced charge, and splits it exactly. */
  lemma TerminalFailureConserves(c: Call, reason: ReasonCode, charge: Charge, now: int)
    requires RowOk(c) && c.status == Claimed
    requires TokenCost(charge.inTokens, charge.outTokens, c.terms.prices) == Ok(charge.cost)
    requires c.attempts == 0 ==> charge == ZERO_CHARGE
    ensures var r := TerminalFailure(c, reason, charge, now);
            && r.Ok? && RowOk(r.value) && Conserves(r.value) && r.value.status == Failed
            && r.value == c.(status := Failed, charged := Some(charge), terminalAt := Some(now), children := r.value.children)
  {
    ChildChargesConserve(c.terms, c.children, charge);
    ChargedChildrenConserve(c.terms, c.children, charge, TerminalFailure(c, reason, charge, now).value.children);
  }

  lemma ZeroIsWellPriced(p: Prices)
    ensures TokenCost(0, 0, p) == Ok(0)
  {}

  lemma SettledEffect(d: Durable, k: CallKey, c': Call)
    requires RowOkAt(d, k) && k in d.calls && d.calls[k].status == Claimed && RowOk(c') && c'.charged.Some? && c'.status != Claimed
    requires c'.id == d.calls[k].id && c'.terms == d.calls[k].terms && c'.attempts == d.calls[k].attempts && !c'.overrun
    requires c'.charged.value.cost <= c'.terms.reserved.cost
    requires c'.status == Completed ==> d.safety.Some? && !d.safety.value.open && d.safety.value.version == c'.terms.safetyVersion
    ensures var d' := Settled(d, k, c');
            RowOkAt(d', k) && BreakerKept(d, d') && Settles(d, d', k) && d'.calls[k] == c'
  {}

  /** The failed settlements: drift before or after the attempt, cancellation, recovery, failure. */
  lemma FailureSettles(d: Durable, k: CallKey, reason: ReasonCode, charge: Charge, now: int)
    requires k in d.calls && RowOk(d.calls[k]) && d.calls[k].status == Claimed
    requires TokenCost(charge.inTokens, charge.outTokens, d.calls[k].terms.prices) == Ok(charge.cost)
    requires charge.cost <= d.calls[k].terms.reserved.cost
    requires d.calls[k].attempts == 0 ==> charge == ZERO_CHARGE
    ensures TerminalFailure(d.calls[k], reason, charge, now).Ok?
    ensures var d' := Settled(d, k, TerminalFailure(d.calls[k], reason, charge, now).value);
            RowOkAt(d', k) && BreakerKept(d, d') && Settles(d, d', k) && Conserves(d'.calls[k])
  {
    TerminalFailureConserves(d.calls[k], reason, charge, now);
    SettledEffect(d, k, TerminalFailure(d.calls[k], reason, charge, now).value);
  }

  // ---- What each transaction does

  lemma ClaimEffect(d: Durable, r: Request, env: Env)
    requires RowOkAt(d, r.key)
    ensures var d' := ClaimTx(d, r, env).0;
            && RowOkAt(d', r.key) && BreakerKept(d, d') && d'.workflows == d.workflows
            && (d' == d || Inserts(d, d', r.key) || Releases(d, d', r.key))
            && (d' != d && r.key in d.calls ==> env.now >= d.calls[r.key].leaseExpires && d'.calls[r.key].leaseToken == Some(env.freshToken))
  {
    var d' := ClaimTx(d, r, env).0;
    if d' != d && r.key !in d.calls {
      SumsOfNewChildren(SortedTerms(r.terms).candidates);
      assert |SortedTerms(r.terms).candidates| == |r.terms.candidates|;
    }
  }

  lemma StartEffect(d: Durable, a: Admission, env: Env)
    requires RowOkAt(d, a.context.key)
    ensures var (d', t) := StartTx(d, a, env);
            && RowOkAt(d', a.context.key) && BreakerKept(d, d') && d'.workflows == d.workflows
            && (t.Ok? ==> Starts(d, d', a.context.key) && t.value.context == a.context)
            && (t.Err? ==> d' == d || (Settles(d, d', a.context.key) && Conserves(d'.calls[a.context.key])))
  {
    var (d', t) := StartTx(d, a, env);
    if d' != d && t.Err? {
      var c := d.calls[a.context.key];
      ZeroIsWellPriced(c.terms.prices);
      FailureSettles(d, a.context.key, PostValidationDrift, ZERO_CHARGE, env.now);
    }
  }

  lemma CompletedChildrenConserve(c: Call, ordered: seq<CandidateCompletion>, charge: Charge, now: int)
    requires RowOk(c) && c.status == Claimed && c.attempts == 1
    requires |ordered| == |c.children| && forall i :: 0 <= i < |ordered| ==> ordered[i].reasons != []
    requires TokenCost(charge.inTokens, charge.outTokens, c.terms.prices) == Ok(charge.cost)
    ensures ChildCharges(c.terms, c.children, charge).Ok? && |ChildCharges(c.terms, c.children, charge).value| == |c.children|
    ensures var c' := c.(status := Completed, charged := Some(charge), terminalAt := Some(now),
                         children := CompletedChildren(c.children, ordered, ChildCharges(c.terms, c.children, charge).value));
            RowOk(c') && Conserves(c')
  {
    ChildChargesConserve(c.terms, c.children, charge);
    var charges := ChildCharges(c.terms, c.children, charge).value;
    ChargedChildrenConserve(c.terms, c.children, charge, CompletedChildren(c.children, ordered, charges));
  }

  lemma SettledOverrunEffect(d: Durable, k: CallKey, c': Call, cost: nat)
    requires RowOkAt(d, k) && k in d.calls && d.calls[k].status == Claimed && RowOk(c') && c'.status == Failed && c'.attempts == 1
    requires c'.id == d.calls[k].id && c'.terms == d.calls[k].terms && c'.attempts == d.calls[k].attempts && d.safety.Some?
    ensures var d' := SettledOverrun(d, k, c', cost);
            && RowOkAt(d', k) && (BreakerKept(d, d') || BreakerOpened(d, d')) && d'.workflows == d.workflows && Settles(d, d', k)
            && (Conserves(c') ==> Conserves(d'.calls[k]))
  {
    var flagged := c'.(overrun := true, overrunCost := OverrunCost(cost, c'.terms.reserved.cost));
    assert RowOk(flagged);
  }

  lemma CompleteChargedEffect(d: Durable, v: Volatile, ctx: Context, c: Call, ordered: seq<CandidateCompletion>,
                              charge: Charge, charges: seq<Charge>, env: Env)
    requires RowOkAt(d, ctx.key) && CallOf(d, ctx) == Some(c) && c.status == Claimed && c.attempts == 1
    requires d.safety.Some? && ctx.key.workflow in d.workflows && |ordered| == |c.children|
    requires TokenCost(charge.inTokens, charge.outTokens, c.terms.prices) == Ok(charge.cost)
    requires ChildCharges(c.terms, c.children, charge) == Ok(charges) && |charges| == |c.children|
    ensures var (d', v', r) := CompleteCharged(d, v, ctx, c, ordered, charge, charges, env);
            && RowOkAt(d', ctx.key) && (BreakerKept(d, d') || BreakerOpened(d, d')) && d'.workflows == d.workflows
            && ((d' == d && v' == v && r.Err?) || (r.Ok? && Settles(d, d', ctx.key) && Conserves(d'.calls[ctx.key]) && v' == Forget(v, ctx.id)))
  {
    if Overruns(d, d.workflows[ctx.key.workflow], ctx.key, c, charge, env.extractionSpend) {
      TerminalFailureConserves(c, ReasonCode.BudgetExceeded, charge, env.now);
      SettledOverrunEffect(d, ctx.key, TerminalFailure(c, ReasonCode.BudgetExceeded, charge, env.now).value, charge.cost);
    } else if d.workflows[ctx.key.workflow].cancelled || !GuardsHold(d, v, c, env) {
      FailureSettles(d, ctx.key, PostValidationDrift, charge, env.now);
    } else if forall i :: 0 <= i < |ordered| ==> ordered[i].reasons != [] {
      CompletedChildrenConserve(c, ordered, charge, env.now);
      var c' := c.(status := Completed, charged := Some(charge), terminalAt := Some(env.now),
                   children := CompletedChildren(c.children, ordered, charges));
      SettledEffect(d, ctx.key, c');
    }
  }

  lemma PricedCompletion(c: Call, done: Completion, now: int)
    requires PriceCompletion(c, done, now).Ok?
    ensures var p := PriceCompletion(c, done, now).value;
            && c.status == Claimed && c.attempts == 1 && now < c.leaseExpires
            && TokenCost(p.charge.inTokens, p.charge.outTokens, c.terms.prices) == Ok(p.charge.cost)
            && ChildCharges(c.terms, c.children, p.charge) == Ok(p.charges)
  {
    hide ChildCharges;
  }

  lemma CompleteEffect(d: Durable, v: Volatile, ctx: Context, done: Completion, env: Env)
    requires RowOkAt(d, ctx.key)
    ensures var (d', v', r) := CompleteTx(d, v, ctx, done, env);
            && RowOkAt(d', ctx.key) && (BreakerKept(d, d') || BreakerOpened(d, d')) && d'.workflows == d.workflows
            && ((d' == d && v' == v && r.Err?) || (r.Ok? && Settles(d, d', ctx.key) && Conserves(d'.calls[ctx.key]) && v' == Forget(v, ctx.id)))
  {
    hide CompleteCharged;
    hide PriceCompletion;
    hide Conserves;
    if CallOf(d, ctx).Some? && d.safety.Some? && ctx.key.workflow in d.workflows {
      var c := d.calls[ctx.key];
      var p := PriceCompletion(c, done, env.now);
      if p.Ok? {
        PricedCompletion(c, done, env.now);
        CompleteChargedEffect(d, v, ctx, c, p.value.ordered, p.value.charge, p.value.charges, env);
      }
    }
  }

  lemma FailEffect(d: Durable, v: Volatile, ctx: Context, f: Failure, env: Env)
    requires RowOkAt(d, ctx.key)
    ensures var (d', v', r) := FailTx(d, v, ctx, f, env);
            && RowOkAt(d', ctx.key) && (BreakerKept(d, d') || BreakerOpened(d, d')) && d'.workflows == d.workflows
            && ((d' == d && v' == v && r.Err?) || (r.Ok? && Settles(d, d', ctx.key) && Conserves(d'.calls[ctx.key]) && v' == Forget(v, ctx.id)))
  {
    hide TerminalFailure;
    hide Conserves;
    if CallOf(d, ctx).Some? && d.safety.Some? {
      var c := d.calls[ctx.key];
      if c.status == Claimed && c.attempts == 1 && FailureCharge(c, f).Ok? {
        var charge := FailureCharge(c, f).value;
        if ExceedsReservation(c.terms, charge) {
          TerminalFailureConserves(c, f.reason, charge, env.now);
          SettledOverrunEffect(d, ctx.key, TerminalFailure(c, f.reason, charge, env.now).value, charge.cost);
        } else {
          FailureSettles(d, ctx.key, f.reason, charge, env.now);
        }
      }
    }
  }

  lemma CancelEffect(d: Durable, ctx: Context, env: Env)
    requires RowOkAt(d, ctx.key)
    ensures var (d', r) := CancelTx(d, ctx, env);
            && RowOkAt(d', ctx.key) && BreakerKept(d, d') && d'.workflows == d.workflows
            && (d' == d || (Settles(d, d', ctx.key) && Conserves(d'.calls[ctx.key])))
  {
    hide TerminalFailure;
    hide Conserves;
    if CallOf(d, ctx).Some? && d.calls[ctx.key].status == Claimed && d.calls[ctx.key].attempts == 0 {
      ZeroIsWellPriced(d.calls[ctx.key].terms.prices);
      FailureSettles(d, ctx.key, PostValidationDrift, ZERO_CHARGE, env.now);
    }
  }

  lemma RecoverEffect(d: Durable, ctx: Context, env: Env)
    requires RowOkAt(d, ctx.key)
    ensures var (d', r) := RecoverTx(d, ctx, env);
            && RowOkAt(d', ctx.key) && BreakerKept(d, d') && d'.workflows == d.workflows
            && (d' == d || (r.Ok? && Settles(d, d', ctx.key) && Conserves(d'.calls[ctx.key])))
            && (d' != d ==> d.calls[ctx.key].attempts == 1 && env.now >= d.calls[ctx.key].leaseExpires
                            && d'.calls[ctx.key].status == Failed && d'.calls[ctx.key].charged == Some(d.calls[ctx.key].terms.reserved))
  {
    hide TerminalFailure;
    hide Conserves;
    if CallOf(d, ctx).Some? && d.calls[ctx.key].status == Claimed && d.calls[ctx.key].attempts == 1 {
      TerminalFailureConserves(d.calls[ctx.key], ReasonCode.ValidatorUnavailable, d.calls[ctx.key].terms.reserved, env.now);
      FailureSettles(d, ctx.key, ReasonCode.ValidatorUnavailable, d.calls[ctx.key].terms.reserved, env.now);
    }
  }

  /** Operator recovery charges the call but zeroes its open children, so the charge is conserved
      exactly when nothing had been attempted. */
  lemma AdminRecoverEffect(d: Durable, k: CallKey, now: int, force: bool)
    requires RowOkAt(d, k)
    ensures var (d', n) := AdminRecoverTx(d, k, now, force);
            && RowOkAt(d', k) && BreakerKept(d, d') && d'.workflows == d.workflows
            && (n == 0 <==> d' == d)
            && (n != 0 ==> Settles(d, d', k) && d'.calls[k].status == Failed && (Conserves(d'.calls[k]) <==> d.calls[k].attempts == 0))
  {
    var (d', n) := AdminRecoverTx(d, k, now, force);
    if n != 0 {
      var cs := d'.calls[k].children;
      assert forall i :: 0 <= i < |cs| ==> cs[i].charge == ZERO_CHARGE;
      SumOfZeros(InTokens(cs));
      SumOfZeros(OutTokens(cs));
      SumOfZeros(Costs(cs));
    }
  }
}
