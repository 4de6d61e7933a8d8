/** The exact outcome of every transaction on a call, in terms of the rows it reads: when it is
    granted, when it is refused, what it charges, and that it leaves everything else alone. */
module CallLaws {
  import opened Outcomes
  import opened Sorting
  import opened Sums
  import opened CostAllocation
  import opened AutoReviewPolicy
  import opened ValidationProtocol
  import opened CallRows

  // ---- Prices and shares

  /** The cost of these tokens, in units of 10^-6 micro-USD, rounded up to a whole micro-USD. */
  predicate PricedUp(charge: Charge, p: Prices) {
    var exact := charge.inTokens * p.input + charge.outTokens * p.output;
    exact <= charge.cost * 1_000_000 < exact + 1_000_000
  }

  lemma PriceIsRoundedUp(inTokens: int, outTokens: int, cost: nat, p: Prices)
    ensures TokenCost(inTokens, outTokens, p) == Ok(cost) <==> inTokens >= 0 && outTokens >= 0 && PricedUp(Charge(inTokens, outTokens, cost), p)
  {}

  /** Even token shares, the first ones one larger, and costs by largest remainder, adding up. */
  ghost predicate FairlyShared(c: Call, charge: Charge) {
    var n := |c.children|;
    && n > 0
    && (forall i :: 0 <= i < n ==> c.children[i].charge.inTokens == charge.inTokens / n + if i < charge.inTokens % n then 1 else 0)
    && (forall i :: 0 <= i < n ==> c.children[i].charge.outTokens == charge.outTokens / n + if i < charge.outTokens % n then 1 else 0)
    && Sum(Costs(c.children)) == charge.cost
    && IsLargestRemainderSplit(ExactCosts(InTokens(c.children), OutTokens(c.children), c.terms.prices), charge.cost,
                               KeysOf(c.children), Costs(c.children))
  }

  lemma ChargesAreFair(t: Terms, children: seq<Child>, charge: Charge, c: Call)
    requires children != [] && PricedUp(charge, t.prices) && ChildCharges(t, children, charge).Ok?
    requires c.terms == t && |c.children| == |children| && KeysOf(c.children) == KeysOf(children)
    requires forall i :: 0 <= i < |children| ==> c.children[i].charge == ChildCharges(t, children, charge).value[i]
    ensures FairlyShared(c, charge)
  {
    PriceIsRoundedUp(charge.inTokens, charge.outTokens, charge.cost, t.prices);
    var n := |children|;
    var inputs, outputs := AllocateTokens(charge.inTokens, n).value, AllocateTokens(charge.outTokens, n).value;
    AllocationIsLargestRemainder(inputs, outputs, t.prices, charge.cost, KeysOf(children));
    ExactCostSplit(charge.inTokens, charge.outTokens, n, t.prices, KeysOf(children));
    assert InTokens(c.children) == inputs && OutTokens(c.children) == outputs;
    assert Costs(c.children) == AllocateMicroUsd(inputs, outputs, t.prices, charge.cost, KeysOf(children)).value;
    hide AllocateMicroUsd, IsLargestRemainderSplit, ChildCharges, Sum;
  }

  // ---- Rows

  /** The row the context names: its identity and its current lease token. */
  predicate Holds(d: Durable, ctx: Context) {
    ctx.key in d.calls && d.calls[ctx.key].id == ctx.id && d.calls[ctx.key].leaseToken == Some(ctx.token)
  }

  /** Only row `k` differs. */
  predicate OnlyRow(d: Durable, d': Durable, k: CallKey) {
    && k in d'.calls && d'.calls == d.calls[k := d'.calls[k]]
    && d'.workflows == d.workflows && (k in d.calls ==> d'.nextId == d.nextId)
  }

  /** Row `k` was settled as failed, its children with it, for one reason and at this charge. */
  ghost predicate FailedAs(d: Durable, d': Durable, k: CallKey, reason: ReasonCode, charge: Charge, now: int) {
    && k in d.calls && OnlyRow(d, d', k)
    && var c, c' := d.calls[k], d'.calls[k];
    && c'.status == Failed && c'.charged == Some(charge) && c'.terminalAt == Some(now)
    && c'.id == c.id && c'.terms == c.terms && c'.attempts == c.attempts && c'.startedAt == c.startedAt
    && c'.leaseToken == c.leaseToken && c'.leaseExpires == c.leaseExpires
    && |c'.children| == |c.children|
    && (forall i :: 0 <= i < |c.children| ==> c'.children[i] == c.children[i].(status := Failed, reasons := [reason], charge := c'.children[i].charge))
    && FairlyShared(c', charge)
  }

  lemma TerminalFailureIsFair(c: Call, reason: ReasonCode, charge: Charge, now: int)
    requires RowOk(c) && c.status == Claimed && PricedUp(charge, c.terms.prices) && (c.attempts == 0 ==> charge == ZERO_CHARGE)
    ensures var r := TerminalFailure(c, reason, charge, now);
            && r.Ok? && FairlyShared(r.value, charge) && |r.value.children| == |c.children|
            && r.value == c.(status := Failed, charged := Some(charge), terminalAt := Some(now), children := r.value.children)
            && forall i :: 0 <= i < |c.children| ==>
                 r.value.children[i] == c.children[i].(status := Failed, reasons := [reason], charge := r.value.children[i].charge)
  {
    PriceIsRoundedUp(charge.inTokens, charge.outTokens, charge.cost, c.terms.prices);
    TerminalFailureConserves(c, reason, charge, now);
    hide RowOk, ChildCharges, FairlyShared;
    var c' := TerminalFailure(c, reason, charge, now).value;
    assert KeysOf(c'.children) == KeysOf(c.children);
    assert c.children != [] by { OkRowsHaveChildren(c); }
    ChargesAreFair(c.terms, c.children, charge, c');
  }

  lemma OkRowsHaveChildren(c: Call)
    requires RowOk(c)
    ensures c.children != []
  {}

  lemma FailureIsFailedAs(d: Durable, k: CallKey, reason: ReasonCode, charge: Charge, now: int)
    requires k in d.calls && RowOk(d.calls[k]) && d.calls[k].status == Claimed
    requires PricedUp(charge, d.calls[k].terms.prices) && (d.calls[k].attempts == 0 ==> charge == ZERO_CHARGE)
    ensures TerminalFailure(d.calls[k], reason, charge, now).Ok?
    ensures FailedAs(d, Settled(d, k, TerminalFailure(d.calls[k], reason, charge, now).value), k, reason, charge, now)
  {
    hide RowOk, FairlyShared, TerminalFailure;
    TerminalFailureIsFair(d.calls[k], reason, charge, now);
  }

  // ---- Claim

  /** One to four candidates, a frame within its caps, and a reservation of exactly its tokens at their
      rounded-up price, within the batch cap and the confirmed ceilings. */
  predicate ReservationStands(t: Terms) {
    && 1 <= |t.candidates| <= 4
    && (forall i, j :: 0 <= i < j < |t.candidates| ==> t.candidates[i].key != t.candidates[j].key)
    && 0 < t.characters <= 12_000
    && 0 < t.framedIn <= t.maxInput && t.reserved.inTokens == t.framedIn && t.reserved.outTokens == t.maxOut
    && PricedUp(t.reserved, t.prices) && t.reserved.cost <= 48_864
    && t.reserved.cost <= t.ceilings.validation && t.ceilings.extraction + t.reserved.cost <= t.ceilings.total
  }

  lemma ValidIffStands(t: Terms)
    ensures ReservationValid(t) <==> ReservationStands(t)
  {
    PriceIsRoundedUp(t.reserved.inTokens, t.reserved.outTokens, t.reserved.cost, t.prices);
    hide TokenCost, PricedUp;
  }

  /** What every claim is asked first: a valid reservation under the caps, the current runtime key
      and policy, and a running workflow with the same confirmed terms. */
  predicate MayClaim(d: Durable, r: Request, env: Env) {
    var t := r.terms;
    && ReservationStands(t)
    && env.runtimeKey == Some(t.keyIdentity)
    && d.safety.Some? && d.safety.value.policy == env.codePolicy
    && r.key.workflow in d.workflows && !d.workflows[r.key.workflow].cancelled
    && d.workflows[r.key.workflow].terms == WorkflowTerms(t.safetyVersion, t.keyIdentity, t.timing, t.ceilings, t.prices, t.maxInput,
                                                          t.maxOut, t.maxBatches, t.maxCandidates)
  }

  /** Sources and rollout are current, the breaker is closed and at the version the terms pin. */
  predicate Undrifted(d: Durable, version: nat, env: Env) {
    env.sourcesOk && env.rolloutOk && d.safety.Some? && !d.safety.value.open && d.safety.value.version == version
  }

  ghost predicate Affordable(d: Durable, r: Request, env: Env) {
    && r.key.workflow in d.workflows
    && var w, t := d.workflows[r.key.workflow], r.terms;
    var obligation := t.reserved.cost + Obligation(d.calls, r.key.workflow);
    && |CallsOf(d.calls, r.key.workflow)| < t.maxBatches
    && CandidateTotal(d.calls, r.key.workflow) + |t.candidates| <= t.maxCandidates
    && obligation <= 97_728 && obligation <= w.terms.ceilings.validation
    && env.extractionSpend + obligation <= w.terms.ceilings.total && env.extractionSpend + obligation <= w.budgetLimit
  }

  predicate IsGrant(o: Result<ClaimOutcome>) { o.Ok? && o.value.kind.ClaimGranted? }

  predicate IsBusy(o: Result<ClaimOutcome>) { o.Ok? && o.value.kind.Busy? }

  /** An open row of the same request whose attempt never started and whose lease ran out. */
  predicate LeaseRanOut(c: Call, r: Request, now: int) {
    c.terms == SortedTerms(r.terms) && c.status == Claimed && c.attempts == 0 && now >= c.leaseExpires
  }

  lemma ReservationIsInNumbers(d: Durable, r: Request, env: Env)
    ensures MayClaim(d, r, env) <==>
            && ReservationValid(r.terms) && env.runtimeKey == Some(r.terms.keyIdentity)
            && d.safety.Some? && d.safety.value.policy == env.codePolicy
            && r.key.workflow in d.workflows && !d.workflows[r.key.workflow].cancelled
            && d.workflows[r.key.workflow].terms == TermsOfWorkflow(r.terms)
  {
    ValidIffStands(r.terms);
    hide ReservationValid, ReservationStands;
  }

  /** A claim is granted exactly to an affordable new call or to an open one whose lease ran out
      before its attempt started. */
  lemma ClaimIsGrantedIff(d: Durable, r: Request, env: Env)
    ensures IsGrant(ClaimTx(d, r, env).1) <==>
            && MayClaim(d, r, env) && Undrifted(d, r.terms.safetyVersion, env)
            && if r.key in d.calls then LeaseRanOut(d.calls[r.key], r, env.now) else Affordable(d, r, env)
  {
    ReservationIsInNumbers(d, r, env);
    hide MayClaim, ReservationValid, SortBy, SumOver;
  }

  /** What a grant leaves: a fresh row of the sorted request, or the old row under a new lease. */
  lemma GrantLeavesOneRow(d: Durable, r: Request, env: Env)
    requires IsGrant(ClaimTx(d, r, env).1)
    ensures var (d', o) := ClaimTx(d, r, env);
            && OnlyRow(d, d', r.key) && d'.safety == d.safety && d'.events == d.events
            && var c := d'.calls[r.key];
            && o.value == ClaimOutcome(c.id, ClaimGranted(env.freshToken, env.now + r.terms.timing.lease))
            && c.leaseToken == Some(env.freshToken) && c.leaseExpires == env.now + r.terms.timing.lease
            && if r.key in d.calls then c == d.calls[r.key].(leaseToken := c.leaseToken, leaseExpires := c.leaseExpires)
               else
                 && c.id == d.nextId && d'.nextId == d.nextId + 1 && c.status == Claimed && c.attempts == 0
                 && c.terms == SortedTerms(r.terms) && c.startedAt == None && c.charged == None && !c.overrun && c.terminalAt == None
                 && |c.children| == |c.terms.candidates|
                 && forall i :: 0 <= i < |c.children| ==> c.children[i] == Child(c.terms.candidates[i], Claimed, ZERO_CHARGE, [], None)
  {
    hide ReservationValid, SortBy, SumOver, WithinBudget;
  }

  lemma CandidateOrderIsTotal()
    ensures TotalPreorder(CandidateLe)
  {
    StringLeIsTotalOrder();
    hide StringLe;
  }

  /** The row keeps the candidates of the request in key order. */
  lemma RowsAreInKeyOrder(t: Terms)
    ensures SortedTerms(t) == t.(candidates := SortedTerms(t).candidates)
    ensures multiset(SortedTerms(t).candidates) == multiset(t.candidates)
    ensures forall i, j :: 0 <= i < j < |t.candidates| ==> StringLe(SortedTerms(t).candidates[i].key, SortedTerms(t).candidates[j].key)
  {
    CandidateOrderIsTotal();
    SortByIsSorted(CandidateLe, t.candidates);
    var ordered := SortBy(CandidateLe, t.candidates);
    hide SortBy, StringLe;
    assert SortedBy(CandidateLe, ordered);
    forall i, j | 0 <= i < j < |t.candidates| ensures StringLe(ordered[i].key, ordered[j].key) {
      assert CandidateLe(ordered[i], ordered[j]);
    }
  }

  /** A request is the same request whatever order its candidates are listed in. */
  lemma CandidateOrderDoesNotMatter(d: Durable, r: Request, reordered: seq<Candidate>, env: Env)
    requires multiset(reordered) == multiset(r.terms.candidates)
    ensures ClaimTx(d, r.(terms := r.terms.(candidates := reordered)), env) == ClaimTx(d, r, env)
  {
    var t, t' := r.terms, r.terms.(candidates := reordered);
    assert |reordered| == |multiset(reordered)| == |multiset(t.candidates)| == |t.candidates|;
    DistinctKeysUnderPermutation(t.candidates, reordered);
    DistinctKeysUnderPermutation(reordered, t.candidates);
    ReservationIgnoresOrder(t, reordered);
    if DistinctKeys(t.candidates) {
      SortedAlike(t.candidates, reordered);
    }
    hide SortBy, ReservationValid, DistinctKeys;
    if ReservationValid(t) {
      assert SortedTerms(t) == SortedTerms(t');
      SameTermsSameClaim(d, r, r.(terms := t'), env);
    }
  }

  lemma ReservationIgnoresOrder(t: Terms, reordered: seq<Candidate>)
    requires |reordered| == |t.candidates| && (DistinctKeys(reordered) <==> DistinctKeys(t.candidates))
    ensures ReservationValid(t) <==> ReservationValid(t.(candidates := reordered))
    ensures ReservationValid(t) ==> DistinctKeys(t.candidates)
  {
    hide DistinctKeys;
  }

  lemma SameTermsSameClaim(d: Durable, r: Request, r': Request, env: Env)
    requires SortedTerms(r.terms) == SortedTerms(r'.terms) && r'.key == r.key && ReservationValid(r.terms) && ReservationValid(r'.terms)
    requires r'.terms == r.terms.(candidates := r'.terms.candidates) && |r'.terms.candidates| == |r.terms.candidates|
    ensures ClaimTx(d, r', env) == ClaimTx(d, r, env)
  {
    hide SortBy, SortedTerms, ReservationValid, Replay, SumOver, NewChildren;
  }

  lemma DistinctKeysUnderPermutation(a: seq<Candidate>, b: seq<Candidate>)
    requires multiset(a) == multiset(b)
    ensures DistinctKeys(a) ==> DistinctKeys(b)
  {
    if DistinctKeys(a) {
      DistinctUnderPermutation(a, b);
      forall i, j | 0 <= i < j < |b| ensures b[i].key != b[j].key {
        assert b[i] in multiset(a) && b[j] in multiset(a);
        var k :| 0 <= k < |a| && a[k] == b[i];
        var l :| 0 <= l < |a| && a[l] == b[j];
      }
    }
  }

  lemma SortedAlike(a: seq<Candidate>, b: seq<Candidate>)
    requires multiset(a) == multiset(b) && DistinctKeys(a)
    ensures SortBy(CandidateLe, a) == SortBy(CandidateLe, b)
  {
    CandidateOrderIsTotal();
    SortByIsSorted(CandidateLe, a);
    SortByIsSorted(CandidateLe, b);
    var x, y := SortBy(CandidateLe, a), SortBy(CandidateLe, b);
    forall i, j | 0 <= i < |x| && 0 <= j < |x| && CandidateLe(x[i], x[j]) && CandidateLe(x[j], x[i]) ensures x[i] == x[j] {
      StringLeTotal(x[i].key, x[j].key);
      assert x[i] in multiset(a) && x[j] in multiset(a);
      var k :| 0 <= k < |a| && a[k] == x[i];
      var l :| 0 <= l < |a| && a[l] == x[j];
    }
    SortedIsUnique(CandidateLe, x, y);
  }

  /** While a lease runs or an attempt was started, a second claim is answered busy with the lease's
      own end, and exactly then. */
  lemma ClaimIsBusyIff(d: Durable, r: Request, env: Env)
    ensures var o := ClaimTx(d, r, env).1;
            IsBusy(o) <==>
            && MayClaim(d, r, env) && Undrifted(d, r.terms.safetyVersion, env)
            && r.key in d.calls && d.calls[r.key].terms == SortedTerms(r.terms) && d.calls[r.key].status == Claimed
            && (env.now < d.calls[r.key].leaseExpires || d.calls[r.key].attempts != 0)
    ensures var o := ClaimTx(d, r, env).1;
            IsBusy(o) ==> o.value == ClaimOutcome(d.calls[r.key].id, Busy(d.calls[r.key].leaseExpires))
  {
    ReservationIsInNumbers(d, r, env);
    hide MayClaim, ReservationValid, SortBy, SumOver;
  }

  lemma OnlyGrantsChangeTables(d: Durable, r: Request, env: Env)
    ensures !IsGrant(ClaimTx(d, r, env).1) ==> ClaimTx(d, r, env).0 == d
  {
    hide ReservationValid, SortBy, SumOver, WithinBudget;
  }

  /** All children of a failed call failed for the one reason. */
  ghost predicate FailedFor(c: Call, reason: ReasonCode) {
    c.children != [] && forall i :: 0 <= i < |c.children| ==> c.children[i].status == Failed && c.children[i].reasons == [reason]
  }

  lemma FailedReasonIsReplayed(c: Call, reason: ReasonCode)
    requires c.status == Failed && FailedFor(c, reason)
    ensures Replay(c) == Ok(ReplayedFailed(reason))
  {
    var failed := set i | 0 <= i < |c.children| && c.children[i].status == Failed :: c.children[i].reasons;
    assert c.children[0].reasons in failed;
    assert failed == {[reason]};
  }

  /** A row of any origin replays exactly if it is whole: a completed one needs children, all completed
      with a reasoned decision; a failed one a single reason shared by all its failed children. */
  lemma ReplaysIff(c: Call)
    ensures c.status == Completed ==>
              (Replay(c).Ok? <==>
               && |c.children| > 0
               && forall i :: 0 <= i < |c.children| ==>
                    c.children[i].status == Completed && c.children[i].verdict.Some? && |c.children[i].verdict.value.reasons| > 0)
    ensures c.status == Failed ==>
              forall reason :: Replay(c) == Ok(ReplayedFailed(reason)) <==>
                && (exists i :: 0 <= i < |c.children| && c.children[i].status == Failed)
                && (forall i :: 0 <= i < |c.children| && c.children[i].status == Failed ==> c.children[i].reasons == [reason])
    ensures c.status == Failed && Replay(c).Ok? ==> Replay(c).value.ReplayedFailed?
  {
    if c.status == Failed {
      forall reason ensures Replay(c) == Ok(ReplayedFailed(reason)) <==>
        && (exists i :: 0 <= i < |c.children| && c.children[i].status == Failed)
        && (forall i :: 0 <= i < |c.children| && c.children[i].status == Failed ==> c.children[i].reasons == [reason])
      {
        FailedReplaysIff(c, reason);
      }
    }
  }

  lemma FailedReplaysIff(c: Call, reason: ReasonCode)
    requires c.status == Failed
    ensures Replay(c) == Ok(ReplayedFailed(reason)) <==>
            && (exists i :: 0 <= i < |c.children| && c.children[i].status == Failed)
            && (forall i :: 0 <= i < |c.children| && c.children[i].status == Failed ==> c.children[i].reasons == [reason])
  {
    var failed := set i | 0 <= i < |c.children| && c.children[i].status == Failed :: c.children[i].reasons;
    if Replay(c) == Ok(ReplayedFailed(reason)) {
      var r :| r in failed && failed == {r} && |r| == 1;
      assert r == [reason];
      forall i | 0 <= i < |c.children| && c.children[i].status == Failed ensures c.children[i].reasons == [reason] {
        assert c.children[i].reasons in failed;
      }
    }
    if (exists i :: 0 <= i < |c.children| && c.children[i].status == Failed)
       && (forall i :: 0 <= i < |c.children| && c.children[i].status == Failed ==> c.children[i].reasons == [reason]) {
      var i :| 0 <= i < |c.children| && c.children[i].status == Failed;
      assert c.children[i].reasons in failed;
      assert failed == {[reason]};
    }
  }

  /** A claim of a terminal call replays it, drift or not: a completed one with its projections, a
      failed one with the reason its children failed for. */
  lemma TerminalCallIsReplayed(d: Durable, r: Request, env: Env)
    requires MayClaim(d, r, env) && RowOkAt(d, r.key)
    requires r.key in d.calls && d.calls[r.key].terms == SortedTerms(r.terms) && d.calls[r.key].status != Claimed
    ensures var c := d.calls[r.key];
            && (c.status == Completed ==>
                && AllDecided(c.children)
                && ClaimTx(d, r, env) == (d, Ok(ClaimOutcome(c.id, ReplayedCompleted(Projections(c.id, c.children, true))))))
            && forall reason :: c.status == Failed && FailedFor(c, reason) ==>
                 ClaimTx(d, r, env) == (d, Ok(ClaimOutcome(c.id, ReplayedFailed(reason))))
  {
    ReservationIsInNumbers(d, r, env);
    var c := d.calls[r.key];
    OkRowsHaveChildren(c);
    forall reason | c.status == Failed && FailedFor(c, reason) ensures Replay(c) == Ok(ReplayedFailed(reason)) {
      FailedReasonIsReplayed(c, reason);
    }
    hide MayClaim, ReservationValid, SortBy, SumOver, FailedFor;
  }

  // ---- Start

  /** The start names a claimed row under its running lease, not started, with the admitted terms. */
  predicate StartIsDue(d: Durable, a: Admission, env: Env) {
    && d.safety.Some?
    && a.context.key.workflow in d.workflows && !d.workflows[a.context.key.workflow].cancelled
    && Holds(d, a.context)
    && var c := d.calls[a.context.key];
    && c.status == Claimed && c.attempts == 0 && env.now < c.leaseExpires
    && a.contentHmac == c.terms.contentHmac && a.characters == c.terms.characters && a.framedIn == c.terms.framedIn
    && a.maxOut == c.terms.maxOut && a.reservedCost == c.terms.reserved.cost && a.keyIdentity == c.terms.keyIdentity
    && a.timing == c.terms.timing
  }

  /** Nothing the attempt depends on has changed since the claim; guards that cannot be read are blank. */
  predicate StartIsUndrifted(d: Durable, a: Admission, env: Env)
    requires Holds(d, a.context)
  {
    && env.runtimeKey == Some(a.keyIdentity) && env.rolloutOk
    && d.safety.Some? && !d.safety.value.open && d.safety.value.policy == env.codePolicy
    && d.safety.value.version == d.calls[a.context.key].terms.safetyVersion
    && a.guards == (if env.guards.Some? then env.guards.value else Guards("", ""))
  }

  /** An attempt is granted exactly when it is due and nothing drifted; then the row records it and
      its renewed lease. */
  lemma StartIsGrantedIff(d: Durable, a: Admission, env: Env)
    ensures var (d', t) := StartTx(d, a, env);
            && (t.Ok? <==> StartIsDue(d, a, env) && StartIsUndrifted(d, a, env))
            && (t.Ok? ==>
                && OnlyRow(d, d', a.context.key) && d'.safety == d.safety && d'.events == d.events
                && var c := d.calls[a.context.key];
                && d'.calls[a.context.key] == c.(attempts := 1, startedAt := Some(env.now), leaseExpires := env.now + c.terms.timing.lease)
                && t.value == Ticket(a.context.token + ":attempt:1", a.context, c.terms.timing.sendWindow,
                                     env.now + c.terms.timing.lease, a.guards))
  {
    hide TerminalFailure;
  }

  /** A due start that drifted settles the call uncharged; one that is not due changes nothing. */
  lemma DriftedStartIsUncharged(d: Durable, a: Admission, env: Env)
    requires RowOkAt(d, a.context.key)
    ensures var d' := StartTx(d, a, env).0;
            && (StartIsDue(d, a, env) && !StartIsUndrifted(d, a, env) ==>
                FailedAs(d, d', a.context.key, PostValidationDrift, Charge(0, 0, 0), env.now) && !d'.calls[a.context.key].overrun
                && d'.safety == d.safety && d'.events == d.events)
            && (!StartIsDue(d, a, env) ==> d' == d)
  {
    hide TerminalFailure, FailedAs;
    if StartIsDue(d, a, env) {
      FailureIsFailedAs(d, a.context.key, PostValidationDrift, ZERO_CHARGE, env.now);
      TerminalFailureIsFair(d.calls[a.context.key], PostValidationDrift, ZERO_CHARGE, env.now);
    }
  }

  // ---- Dispatch

  /** The dispatch check reads a row, a running workflow and current guards. */
  predicate CheckCanRead(d: Durable, g: Grant, env: Env) {
    && d.safety.Some? && g.context.key.workflow in d.workflows && !d.workflows[g.context.key.workflow].cancelled
    && Holds(d, g.context) && env.guards.Some?
  }

  /** What is still so when the check lets a send through: the started attempt under its lease, the
      invocation that was claimed, the guards of the start, and no drift. */
  predicate CheckAgrees(d: Durable, v: Volatile, g: Grant, inv: Invocation, env: Env)
    requires CheckCanRead(d, g, env)
  {
    var c := d.calls[g.context.key];
    && c.status == Claimed && c.attempts == 1 && env.now < c.leaseExpires
    && inv.contentHmac == c.terms.contentHmac && inv.characters == c.terms.characters
    && inv.framedIn == c.terms.framedIn && inv.maxOut == c.terms.maxOut
    && g.context.id in v.guards && env.guards.value == v.guards[g.context.id]
    && env.runtimeKey == Some(c.terms.keyIdentity) && env.rolloutOk
    && !d.safety.value.open && d.safety.value.policy == env.codePolicy && d.safety.value.version == c.terms.safetyVersion
  }

  lemma CheckPassesIff(d: Durable, v: Volatile, g: Grant, inv: Invocation, env: Env)
    ensures DispatchCheck(d, v, g, inv, env).Ok? <==> CheckCanRead(d, g, env)
    ensures DispatchCheck(d, v, g, inv, env) == Ok(true) <==> CheckCanRead(d, g, env) && CheckAgrees(d, v, g, inv, env)
  {}

  lemma PermitIsGoodIff(p: Permit, clock: int)
    ensures ConsumePermit(p, clock).Ok? <==> !p.consumed && !p.invalidated && clock < p.deadline
    ensures ConsumePermit(p, clock).Ok? ==> ConsumePermit(p, clock).value == p.(consumed := true)
  {}

  // ---- Completion

  /** A completion of the dispatched attempt, under its lease, for the call's own candidates. */
  ghost predicate CompletionIsDue(d: Durable, v: Volatile, ctx: Context, done: Completion, env: Env) {
    && done.context == ctx && ctx.id in v.dispatched
    && d.safety.Some? && ctx.key.workflow in d.workflows && Holds(d, ctx)
    && var c := d.calls[ctx.key];
    && c.status == Claimed && c.attempts == 1 && env.now < c.leaseExpires
    && CandidatesOf(SortBy(CompletionLe, done.candidates)) == ChildCandidates(c.children)
    && done.inTokens >= 0 && done.outTokens >= 0
  }

  /** The usage is beyond the reservation, or the workflow beyond a ceiling if it is charged. */
  ghost predicate BeyondBudget(d: Durable, key: CallKey, charge: Charge, env: Env)
    requires key in d.calls && key.workflow in d.workflows
  {
    var c, w := d.calls[key], d.workflows[key.workflow];
    var obligation := charge.cost + SumOver(CallsOf(d.calls, key.workflow) - {key}, OwedIn(d.calls));
    || charge.inTokens > c.terms.framedIn || charge.outTokens > c.terms.maxOut || charge.cost > c.terms.reserved.cost
    || obligation > 97_728 || obligation > w.terms.ceilings.validation
    || env.extractionSpend + obligation > w.terms.ceilings.total || env.extractionSpend + obligation > w.budgetLimit
  }

  /** The workflow still runs and nothing drifted since the attempt started. */
  predicate CompletionIsUndrifted(d: Durable, v: Volatile, ctx: Context, env: Env)
    requires ctx.key in d.calls && ctx.key.workflow in d.workflows
  {
    var c := d.calls[ctx.key];
    && !d.workflows[ctx.key.workflow].cancelled
    && c.id in v.guards && v.guards[c.id] == (if env.guards.Some? then env.guards.value else Guards("", ""))
    && env.runtimeKey == Some(c.terms.keyIdentity) && env.rolloutOk
    && d.safety.Some? && !d.safety.value.open && d.safety.value.policy == env.codePolicy && d.safety.value.version == c.terms.safetyVersion
  }

  predicate AllReasoned(cs: seq<CandidateCompletion>) { forall i :: 0 <= i < |cs| ==> cs[i].reasons != [] }

  /** Process state after a call is settled: its dispatch mark and its guards are dropped. */
  predicate Forgot(v: Volatile, v': Volatile, id: nat) {
    v' == v.(dispatched := v.dispatched - {id}, guards := v.guards - {id})
  }

  /** FlaggedFor by how far the charge exceeds the reservation, the breaker open. */
  predicate FlaggedFor(d: Durable, d': Durable, k: CallKey, charge: Charge)
    requires k in d.calls
  {
    && k in d'.calls && d'.calls[k].overrun
    && d'.calls[k].overrunCost == (if charge.cost > d.calls[k].terms.reserved.cost then charge.cost - d.calls[k].terms.reserved.cost else 0)
    && d'.safety.Some? && d'.safety.value.open
  }

  /** The row and its children completed: child `i` holds the verdict of the completion for it. */
  ghost predicate CompletedAs(d: Durable, d': Durable, k: CallKey, done: Completion, charge: Charge, now: int) {
    && k in d.calls && OnlyRow(d, d', k) && d'.safety == d.safety && d'.events == d.events
    && var c, c' := d.calls[k], d'.calls[k];
    var ordered := SortBy(CompletionLe, done.candidates);
    && c' == c.(status := Completed, charged := Some(charge), terminalAt := Some(now), children := c'.children)
    && |c'.children| == |c.children| == |ordered|
    && FairlyShared(c', charge)
    && forall i :: 0 <= i < |c.children| ==> ChildCompleted(c.children[i], c'.children[i], ordered[i])
  }

  predicate ChildCompleted(child: Child, child': Child, done: CandidateCompletion) {
    && child'.candidate == child.candidate && child'.status == Completed && child'.reasons == done.reasons
    && child'.verdict.Some?
    && child'.verdict.value.claims == done.result.claims && child'.verdict.value.uncertainty == done.result.uncertainty
    && child'.verdict.value.conflicts == done.result.conflicts && child'.verdict.value.decision == done.decision
    && child'.verdict.value.reasons == done.reasons
  }

  lemma OverrunIsCompletedAs(d: Durable, k: CallKey, charge: Charge, now: int, reason: ReasonCode)
    requires k in d.calls && RowOk(d.calls[k]) && d.calls[k].status == Claimed && d.calls[k].attempts == 1 && d.safety.Some?
    requires PricedUp(charge, d.calls[k].terms.prices)
    ensures TerminalFailure(d.calls[k], reason, charge, now).Ok?
    ensures var d' := SettledOverrun(d, k, TerminalFailure(d.calls[k], reason, charge, now).value, charge.cost);
            FailedAs(d, d', k, reason, charge, now) && FlaggedFor(d, d', k, charge)
  {
    hide RowOk, TerminalFailure;
    TerminalFailureIsFair(d.calls[k], reason, charge, now);
    var c' := TerminalFailure(d.calls[k], reason, charge, now).value;
    var flagged := c'.(overrun := true, overrunCost := OverrunCost(charge.cost, c'.terms.reserved.cost));
    assert FairlyShared(flagged, charge);
    hide FairlyShared;
  }

  lemma CompletedRow(c: Call, ordered: seq<CandidateCompletion>, charge: Charge, charges: seq<Charge>, now: int)
    requires RowOk(c) && |ordered| == |c.children| == |charges| && PricedUp(charge, c.terms.prices)
    requires ChildCharges(c.terms, c.children, charge) == Ok(charges)
    ensures var c' := c.(status := Completed, charged := Some(charge), terminalAt := Some(now),
                         children := CompletedChildren(c.children, ordered, charges));
            && FairlyShared(c', charge) && |c'.children| == |c.children|
            && forall i :: 0 <= i < |c.children| ==> ChildCompleted(c.children[i], c'.children[i], ordered[i])
  {
    OkRowsHaveChildren(c);
    hide FairlyShared, ChildCharges, RowOk, PricedUp;
    var children := CompletedChildren(c.children, ordered, charges);
    assert KeysOf(children) == KeysOf(c.children);
    var c' := c.(status := Completed, charged := Some(charge), terminalAt := Some(now), children := children);
    ChargesAreFair(c.terms, c.children, charge, c');
  }

  lemma CompletionIsCompletedAs(d: Durable, v: Volatile, ctx: Context, done: Completion, charge: Charge, charges: seq<Charge>, env: Env)
    requires ctx.key in d.calls && RowOk(d.calls[ctx.key])
    requires d.safety.Some? && ctx.key.workflow in d.workflows && |done.candidates| == |d.calls[ctx.key].children| == |charges|
    requires PricedUp(charge, d.calls[ctx.key].terms.prices)
    requires ChildCharges(d.calls[ctx.key].terms, d.calls[ctx.key].children, charge) == Ok(charges)
    requires !BeyondBudget(d, ctx.key, charge, env) && CompletionIsUndrifted(d, v, ctx, env) && AllReasoned(done.candidates)
    ensures var (d', v', r) := CompleteCharged(d, v, ctx, d.calls[ctx.key], SortBy(CompletionLe, done.candidates), charge, charges, env);
            && CompletedAs(d, d', ctx.key, done, charge, env.now) && Forgot(v, v', ctx.id)
            && AllDecided(d'.calls[ctx.key].children) && r == Ok(Projections(d.calls[ctx.key].id, d'.calls[ctx.key].children, false))
  {
    hide FairlyShared, ChildCharges, BeyondBudget, Overruns, SortBy, RowOk, PricedUp, ChildCompleted, AllReasoned, CompleteCharged,
      GuardsHold, AllDecided, CompletedChildren, CompletionIsUndrifted;
    var c := d.calls[ctx.key];
    var ordered := SortBy(CompletionLe, done.candidates);
    ReasonedInOrder(done);
    BudgetInNumbers(d, ctx.key, charge, env);
    CompletedRow(c, ordered, charge, charges, env.now);
    DecidedChildren(c.children, ordered, charges);
    DriftInTwoParts(d, v, ctx, env);
    ChargedCompletes(d, v, ctx, c, ordered, charge, charges, env);
  }

  lemma DriftInTwoParts(d: Durable, v: Volatile, ctx: Context, env: Env)
    requires ctx.key in d.calls && ctx.key.workflow in d.workflows && d.safety.Some?
    ensures CompletionIsUndrifted(d, v, ctx, env) <==> !d.workflows[ctx.key.workflow].cancelled && GuardsHold(d, v, d.calls[ctx.key], env)
  {}

  lemma ReasonedInOrder(done: Completion)
    ensures AllReasoned(done.candidates) <==> AllReasoned(SortBy(CompletionLe, done.candidates))
  {
    hide SortBy;
    var ordered := SortBy(CompletionLe, done.candidates);
    if AllReasoned(done.candidates) {
      forall i | 0 <= i < |ordered| ensures ordered[i].reasons != [] {
        assert ordered[i] in multiset(done.candidates);
      }
    } else {
      var j :| 0 <= j < |done.candidates| && done.candidates[j].reasons == [];
      assert done.candidates[j] in multiset(ordered);
      var i :| 0 <= i < |ordered| && ordered[i] == done.candidates[j];
    }
  }

  lemma DecidedChildren(children: seq<Child>, ordered: seq<CandidateCompletion>, charges: seq<Charge>)
    requires |ordered| == |children| == |charges| && AllReasoned(ordered)
    ensures AllDecided(CompletedChildren(children, ordered, charges))
  {}

  /** The last branch of a completion. */
  lemma ChargedCompletes(d: Durable, v: Volatile, ctx: Context, c: Call, ordered: seq<CandidateCompletion>, charge: Charge,
                         charges: seq<Charge>, env: Env)
    requires d.safety.Some? && ctx.key.workflow in d.workflows && |ordered| == |c.children| == |charges|
    requires !Overruns(d, d.workflows[ctx.key.workflow], ctx.key, c, charge, env.extractionSpend)
    requires !d.workflows[ctx.key.workflow].cancelled && GuardsHold(d, v, c, env)
    requires AllDecided(CompletedChildren(c.children, ordered, charges))
    requires AllReasoned(ordered)
    ensures var children := CompletedChildren(c.children, ordered, charges);
            CompleteCharged(d, v, ctx, c, ordered, charge, charges, env)
            == (Settled(d, ctx.key, c.(status := Completed, charged := Some(charge), terminalAt := Some(env.now), children := children)),
                Forget(v, ctx.id), Ok(Projections(c.id, children, false)))
  {
    hide Overruns, GuardsHold, TerminalFailure, AllDecided, CompletedChildren;
  }

  lemma BudgetInNumbers(d: Durable, key: CallKey, charge: Charge, env: Env)
    requires key in d.calls && key.workflow in d.workflows
    ensures BeyondBudget(d, key, charge, env) <==> Overruns(d, d.workflows[key.workflow], key, d.calls[key], charge, env.extractionSpend)
  {
    hide SumOver;
  }

  /** The three ways of a due completion, at the rounded-up cost of its usage. */
  lemma DueCompletion(d: Durable, v: Volatile, ctx: Context, done: Completion, env: Env, charge: Charge)
    requires RowOkAt(d, ctx.key) && CompletionIsDue(d, v, ctx, done, env)
    requires charge.inTokens == done.inTokens && charge.outTokens == done.outTokens && PricedUp(charge, d.calls[ctx.key].terms.prices)
    ensures var (d', v', r) := CompleteTx(d, v, ctx, done, env);
            if BeyondBudget(d, ctx.key, charge, env) then
              && FailedAs(d, d', ctx.key, ReasonCode.BudgetExceeded, charge, env.now) && FlaggedFor(d, d', ctx.key, charge)
              && Forgot(v, v', ctx.id) && r == Ok([])
            else if !CompletionIsUndrifted(d, v, ctx, env) then
              && FailedAs(d, d', ctx.key, PostValidationDrift, charge, env.now) && !d'.calls[ctx.key].overrun
              && d'.safety == d.safety && d'.events == d.events && Forgot(v, v', ctx.id) && r == Ok([])
            else if AllReasoned(done.candidates) then
              && CompletedAs(d, d', ctx.key, done, charge, env.now) && Forgot(v, v', ctx.id)
              && AllDecided(d'.calls[ctx.key].children) && r == Ok(Projections(d.calls[ctx.key].id, d'.calls[ctx.key].children, false))
            else d' == d && v' == v && r.Err?
  {
    hide RowOk, PriceCompletion, ChildCharges, BeyondBudget, Overruns, FailedAs, CompletedAs, FlaggedFor, PricedUp, TerminalFailure, SettledOverrun,
      CompletionIsUndrifted, GuardsHold, SortBy, CompletionLe, FairlyShared, CompleteTx;
    var c := d.calls[ctx.key];
    DueIsPriced(d, v, ctx, done, env, charge);
    var charges := PriceCompletion(c, done, env.now).value.charges;
    BudgetInNumbers(d, ctx.key, charge, env);
    DriftInTwoParts(d, v, ctx, env);
    if BeyondBudget(d, ctx.key, charge, env) {
      OverrunIsCompletedAs(d, ctx.key, charge, env.now, ReasonCode.BudgetExceeded);
    } else if !CompletionIsUndrifted(d, v, ctx, env) {
      FailureIsFailedAs(d, ctx.key, PostValidationDrift, charge, env.now);
      TerminalFailureIsFair(c, PostValidationDrift, charge, env.now);
      OpenRowIsUnflagged(c);
    } else if AllReasoned(done.candidates) {
      CompletionIsCompletedAs(d, v, ctx, done, charge, charges, env);
    } else {
      ReasonedInOrder(done);
    }
  }

  lemma OpenRowIsUnflagged(c: Call)
    requires RowOk(c) && c.status == Claimed
    ensures !c.overrun && c.charged.None?
  {}

  lemma DueIsPriced(d: Durable, v: Volatile, ctx: Context, done: Completion, env: Env, charge: Charge)
    requires RowOkAt(d, ctx.key) && CompletionIsDue(d, v, ctx, done, env)
    requires charge.inTokens == done.inTokens && charge.outTokens == done.outTokens && PricedUp(charge, d.calls[ctx.key].terms.prices)
    ensures var c := d.calls[ctx.key];
            var p := PriceCompletion(c, done, env.now);
            && p.Ok? && p.value.ordered == SortBy(CompletionLe, done.candidates) && p.value.charge == charge
            && ChildCharges(c.terms, c.children, charge) == Ok(p.value.charges) && |done.candidates| == |c.children|
            && CompleteTx(d, v, ctx, done, env) == CompleteCharged(d, v, ctx, c, p.value.ordered, charge, p.value.charges, env)
            && c.status == Claimed && c.attempts == 1 && RowOk(c) && d.safety.Some? && ctx.key.workflow in d.workflows
  {
    var c := d.calls[ctx.key];
    PriceIsRoundedUp(done.inTokens, done.outTokens, charge.cost, c.terms.prices);
    OkRowsHaveChildren(c);
    ChildChargesConserve(c.terms, c.children, charge);
    assert |CandidatesOf(SortBy(CompletionLe, done.candidates))| == |done.candidates|;
    assert |ChildCandidates(c.children)| == |c.children|;
    hide ChildCharges, SortBy, CompleteCharged, RowOk, PricedUp, TokenCost;
  }

  lemma CompletionThatIsNotDue(d: Durable, v: Volatile, ctx: Context, done: Completion, env: Env)
    requires !CompletionIsDue(d, v, ctx, done, env)
    ensures var (d', v', r) := CompleteTx(d, v, ctx, done, env); d' == d && v' == v && r.Err?
  {
    hide ChildCharges, SortBy, CompleteCharged;
  }

  // ---- Failure, cancellation, recovery

  /** The provider's failure names the open, attempted call it was granted for. */
  predicate FailureIsDue(d: Durable, ctx: Context, f: Failure, env: Env) {
    && f.context == ctx && d.safety.Some? && d.safety.value.policy == env.codePolicy && ctx.key.workflow in d.workflows
    && Holds(d, ctx) && d.calls[ctx.key].status == Claimed && d.calls[ctx.key].attempts == 1
    && (f.usage.Some? ==> f.usage.value.0 >= 0 && f.usage.value.1 >= 0)
  }

  /** A due failure is charged its reported usage, rounded up, or the whole reservation when no usage
      is known; and flagged exactly when that exceeds the reservation. */
  lemma DueFailure(d: Durable, v: Volatile, ctx: Context, f: Failure, env: Env, charge: Charge)
    requires RowOkAt(d, ctx.key) && FailureIsDue(d, ctx, f, env)
    requires if f.usage.None? then charge == d.calls[ctx.key].terms.reserved
             else charge.inTokens == f.usage.value.0 && charge.outTokens == f.usage.value.1 && PricedUp(charge, d.calls[ctx.key].terms.prices)
    ensures var (d', v', r) := FailTx(d, v, ctx, f, env);
            var t := d.calls[ctx.key].terms;
            && r.Ok? && Forgot(v, v', ctx.id) && FailedAs(d, d', ctx.key, f.reason, charge, env.now)
            && if charge.inTokens > t.framedIn || charge.outTokens > t.maxOut || charge.cost > t.reserved.cost
               then FlaggedFor(d, d', ctx.key, charge)
               else !d'.calls[ctx.key].overrun && d'.safety == d.safety && d'.events == d.events
  {
    var c := d.calls[ctx.key];
    PriceIsRoundedUp(charge.inTokens, charge.outTokens, charge.cost, c.terms.prices);
    assert PricedUp(charge, c.terms.prices) by { ReservedIsPriced(c); }
    assert FailureCharge(c, f) == Ok(charge);
    OpenRowIsUnflagged(c);
    OverrunIsCompletedAs(d, ctx.key, charge, env.now, f.reason);
    FailureIsFailedAs(d, ctx.key, f.reason, charge, env.now);
    TerminalFailureIsFair(c, f.reason, charge, env.now);
    hide RowOk, TerminalFailure, FailedAs, PricedUp, FailureCharge, FairlyShared, FlaggedFor, SettledOverrun;
  }

  lemma ReservedIsPriced(c: Call)
    requires RowOk(c)
    ensures PricedUp(c.terms.reserved, c.terms.prices)
  {
    PriceIsRoundedUp(c.terms.reserved.inTokens, c.terms.reserved.outTokens, c.terms.reserved.cost, c.terms.prices);
  }

  lemma FailureThatIsNotDue(d: Durable, v: Volatile, ctx: Context, f: Failure, env: Env)
    requires !FailureIsDue(d, ctx, f, env)
    ensures var (d', v', r) := FailTx(d, v, ctx, f, env); d' == d && v' == v && r.Err?
  {
    hide TerminalFailure;
  }

  /** The tables are the current policy's, and the context holds the row. */
  predicate CanClose(d: Durable, ctx: Context, env: Env) {
    d.safety.Some? && d.safety.value.policy == env.codePolicy && ctx.key.workflow in d.workflows && Holds(d, ctx)
  }

  /** Cancelling settles an attempt that never started, uncharged; otherwise it changes nothing. */
  lemma CancellationIsUncharged(d: Durable, ctx: Context, env: Env)
    requires RowOkAt(d, ctx.key)
    ensures var (d', r) := CancelTx(d, ctx, env);
            && (r.Ok? <==> CanClose(d, ctx, env))
            && if CanClose(d, ctx, env) && d.calls[ctx.key].status == Claimed && d.calls[ctx.key].attempts == 0
               then FailedAs(d, d', ctx.key, PostValidationDrift, Charge(0, 0, 0), env.now) && !d'.calls[ctx.key].overrun
                    && d'.safety == d.safety && d'.events == d.events
               else d' == d
  {
    hide TerminalFailure, FailedAs;
    if CanClose(d, ctx, env) && d.calls[ctx.key].status == Claimed && d.calls[ctx.key].attempts == 0 {
      FailureIsFailedAs(d, ctx.key, PostValidationDrift, ZERO_CHARGE, env.now);
      TerminalFailureIsFair(d.calls[ctx.key], PostValidationDrift, ZERO_CHARGE, env.now);
    }
  }

  /** Recovery settles exactly a started attempt whose lease ran out, and charges it everything it
      reserved: the money may have been spent. */
  lemma RecoveryChargesTheReservation(d: Durable, ctx: Context, env: Env)
    requires RowOkAt(d, ctx.key)
    ensures var (d', r) := RecoverTx(d, ctx, env);
            var due := CanClose(d, ctx, env) && d.calls[ctx.key].status == Claimed && d.calls[ctx.key].attempts == 1
                       && env.now >= d.calls[ctx.key].leaseExpires;
            && (r.Ok? <==> due)
            && if due then FailedAs(d, d', ctx.key, ReasonCode.ValidatorUnavailable, d.calls[ctx.key].terms.reserved, env.now)
                           && !d'.calls[ctx.key].overrun && d'.safety == d.safety && d'.events == d.events
               else d' == d
  {
    hide TerminalFailure, FailedAs;
    if CanClose(d, ctx, env) && d.calls[ctx.key].status == Claimed && d.calls[ctx.key].attempts == 1 {
      var c := d.calls[ctx.key];
      ReservedIsPriced(c);
      FailureIsFailedAs(d, ctx.key, ReasonCode.ValidatorUnavailable, c.terms.reserved, env.now);
      TerminalFailureIsFair(c, ReasonCode.ValidatorUnavailable, c.terms.reserved, env.now);
    }
  }

  /** So what a workflow owes is the same before and after a recovery, and before and after a failure
      whose usage is unknown: not a micro-USD of possibly spent money returns to its budget. */
  lemma UnknownSpendingStaysOwed(d: Durable, d': Durable, k: CallKey, reason: ReasonCode, now: int, w: WorkflowId)
    requires RowOkAt(d, k) && k in d.calls && d.calls[k].status == Claimed
    requires FailedAs(d, d', k, reason, d.calls[k].terms.reserved, now)
    ensures Obligation(d'.calls, w) == Obligation(d.calls, w)
  {
    hide RowOk, FairlyShared;
    assert CallsOf(d'.calls, w) == CallsOf(d.calls, w);
    SumOverSame(CallsOf(d.calls, w), OwedIn(d.calls), OwedIn(d'.calls));
  }

  /** Operator recovery, by row and host clock: it settles an open call whose lease ran out, or any
      open call when forced; charges the reservation if an attempt was started and nothing otherwise;
      and takes the lease away. */
  lemma OperatorRecoverySettles(d: Durable, k: CallKey, now: int, force: bool)
    requires RowOkAt(d, k)
    ensures var (d', n) := AdminRecoverTx(d, k, now, force);
            var due := k in d.calls && d.calls[k].status == Claimed && (force || now >= d.calls[k].leaseExpires);
            && n == (if due then 1 else 0)
            && (!due ==> d' == d)
            && (due ==>
                && OnlyRow(d, d', k) && d'.safety == d.safety && d'.events == d.events
                && var c, c' := d.calls[k], d'.calls[k];
                && c' == c.(status := Failed, leaseToken := None, terminalAt := Some(now), charged := c'.charged, children := c'.children)
                && c'.charged == Some(if c.attempts == 0 then Charge(0, 0, 0) else c.terms.reserved)
                && |c'.children| == |c.children|
                && forall i :: 0 <= i < |c.children| ==>
                     c'.children[i] == c.children[i].(status := Failed, reasons := [ReasonCode.ValidatorUnavailable], charge := Charge(0, 0, 0)))
  {}

  // ---- The breaker's operators

  /** The first row is written once, for the policy of the running code, closed. */
  lemma InitialAuthorizationIff(d: Durable, policy: nat, env: Env)
    ensures var (d', r) := AuthorizeInitialTx(d, policy, env);
            && (r.Ok? <==> policy == env.codePolicy && env.runtimeKey.Some? && d.safety.None?)
            && (r.Err? ==> d' == d)
            && (r.Ok? ==> d'.safety == Some(Safety(1, policy, false, 0, 1)) && d'.calls == d.calls && d'.workflows == d.workflows)
  {}

  /** Clearing needs an open breaker, the version the operator saw, and the running code to have moved
      to another cost policy than the one that overran; the overrun count stays. */
  lemma ClearingIff(d: Durable, version: nat, policy: nat, env: Env)
    ensures var (d', r) := ClearBreakerTx(d, version, policy, env);
            && (r.Ok? <==>
                && env.runtimeKey.Some? && d.safety.Some? && d.safety.value.version == version && d.safety.value.open
                && policy == env.codePolicy && policy != d.safety.value.policy)
            && (r.Err? ==> d' == d)
            && (r.Ok? ==>
                && d'.calls == d.calls && d'.workflows == d.workflows && d'.safety.Some?
                && d'.safety.value.policy == policy && !d'.safety.value.open && d'.safety.value.version == version + 1
                && d'.safety.value.overruns == d.safety.value.overruns)
  {}
}
