/** What a run has to have done: every provider invocation has its start, its permit, its check and
    its window behind it; a running lease is nobody else's; a failed call keeps its reason. */
module CallHistory {
  import opened Outcomes
  import opened Sums
  import opened CostAllocation
  import opened AutoReviewPolicy
  import opened ValidationProtocol
  import opened CallRows
  import opened CallLaws
  import opened ValidationSystem
  import opened ProtocolSafety

  // ---- Every invocation has its history

  /** The steps of one invocation, by their place in the run. */
  datatype Trail = Trail(start: nat, mint: nat, check: nat, send: nat)

  /** Step `a` was granted the attempt of call `k`. */
  ghost predicate StartedAt(ops: seq<Op>, a: nat, k: CallKey) {
    && a < |ops| && ops[a].Start? && ops[a].admission.context.key == k
    && StartIsDue(Reached(ops[..a]).d, ops[a].admission, ops[a].env)
    && StartIsUndrifted(Reached(ops[..a]).d, ops[a].admission, ops[a].env)
  }

  ghost function WindowAt(ops: seq<Op>, a: nat, k: CallKey): nat
    requires StartedAt(ops, a, k)
  {
    Reached(ops[..a]).d.calls[k].terms.timing.sendWindow
  }

  /** After that start, step `mint` minted a permit that is good until `deadline`. */
  ghost predicate MintedOn(ops: seq<Op>, t: Trail, k: CallKey, deadline: int) {
    && StartedAt(ops, t.start, k) && t.start < t.mint < |ops| && ops[t.mint].Mint?
    && deadline == ops[t.mint].clock + WindowAt(ops, t.start, k)
  }

  /** Step `c` found call `k` as it was started, its invocation as it was claimed, and no drift. */
  ghost predicate CheckedAt(ops: seq<Op>, c: nat, k: CallKey) {
    && c < |ops| && ops[c].CheckDispatch?
    && var s := Reached(ops[..c]);
    var v := VolatileOf(s, ops[c].process);
    && ops[c].attempt in v.active && v.active[ops[c].attempt].context.key == k
    && CheckCanRead(s.d, v.active[ops[c].attempt], ops[c].env)
    && CheckAgrees(s.d, v, v.active[ops[c].attempt], ops[c].invocation, ops[c].env)
  }

  ghost predicate CheckedOn(ops: seq<Op>, t: Trail, k: CallKey, deadline: int) {
    MintedOn(ops, t, k, deadline) && t.mint < t.check && CheckedAt(ops, t.check, k)
  }

  ghost predicate SentOn(ops: seq<Op>, t: Trail, k: CallKey) {
    && t.check < t.send < |ops| && ops[t.send].Send?
    && exists deadline: int :: CheckedOn(ops, t, k, deadline) && ops[t.send].clock < deadline
  }

  ghost predicate PermitOk(ops: seq<Op>, key: CallKey, deadline: int) { exists t :: MintedOn(ops, t, key, deadline) }

  predicate GrantOk(permits: seq<Permit>, g: Grant) { g.permit < |permits| && permits[g.permit].key == g.context.key }

  ghost predicate ThreadOk(ops: seq<Op>, permits: seq<Permit>, t: Thread) {
    match t
    case Minting(_, ticket) => exists a: nat :: StartedAt(ops, a, ticket.context.key) && ticket.sendWindow == WindowAt(ops, a, ticket.context.key)
    case Dispatching(_, _, permit, ctx) =>
      permit < |permits| && permits[permit].key == ctx.key && exists trail :: CheckedOn(ops, trail, ctx.key, permits[permit].deadline)
  }

  ghost predicate InvocationOk(ops: seq<Op>, k: CallKey) { exists t :: SentOn(ops, t, k) }

  ghost predicate HistoryOk(ops: seq<Op>, s: State) {
    && (forall t :: t in s.threads ==> ThreadOk(ops, s.permits, s.threads[t]))
    && (forall i :: 0 <= i < |s.permits| ==> PermitOk(ops, s.permits[i].key, s.permits[i].deadline))
    && (forall p, a :: p in s.processes && a in s.processes[p].active ==> GrantOk(s.permits, s.processes[p].active[a]))
    && (forall n :: 0 <= n < |s.invoked| ==> InvocationOk(ops, s.invoked[n]))
  }

  /** Permits keep their call and their deadline. */
  predicate PermitsExtend(permits: seq<Permit>, permits': seq<Permit>) {
    && |permits| <= |permits'|
    && forall i :: 0 <= i < |permits| ==> permits'[i].key == permits[i].key && permits'[i].deadline == permits[i].deadline
  }

  // A longer run has the same steps in the same places.

  lemma MintedStays(ops: seq<Op>, op: Op, t: Trail, k: CallKey, deadline: int)
    requires MintedOn(ops, t, k, deadline)
    ensures MintedOn(ops + [op], t, k, deadline)
  {
    StartedStays(ops, op, t.start, k);
  }

  lemma StartedStays(ops: seq<Op>, op: Op, a: nat, k: CallKey)
    requires StartedAt(ops, a, k)
    ensures StartedAt(ops + [op], a, k) && WindowAt(ops + [op], a, k) == WindowAt(ops, a, k)
  {
    assert (ops + [op])[..a] == ops[..a];
  }

  lemma CheckedStays(ops: seq<Op>, op: Op, t: Trail, k: CallKey, deadline: int)
    requires CheckedOn(ops, t, k, deadline)
    ensures CheckedOn(ops + [op], t, k, deadline)
  {
    MintedStays(ops, op, t, k, deadline);
    assert (ops + [op])[..t.check] == ops[..t.check];
  }

  lemma PermitStays(ops: seq<Op>, op: Op, k: CallKey, deadline: int)
    requires PermitOk(ops, k, deadline)
    ensures PermitOk(ops + [op], k, deadline)
  {
    hide MintedOn;
    var t :| MintedOn(ops, t, k, deadline);
    MintedStays(ops, op, t, k, deadline);
  }

  lemma InvocationStays(ops: seq<Op>, op: Op, k: CallKey)
    requires InvocationOk(ops, k)
    ensures InvocationOk(ops + [op], k)
  {
    hide CheckedOn;
    var t :| SentOn(ops, t, k);
    var deadline: int :| CheckedOn(ops, t, k, deadline) && ops[t.send].clock < deadline;
    CheckedStays(ops, op, t, k, deadline);
    assert SentOn(ops + [op], t, k);
  }

  lemma ThreadStays(ops: seq<Op>, op: Op, permits: seq<Permit>, permits': seq<Permit>, t: Thread)
    requires ThreadOk(ops, permits, t) && PermitsExtend(permits, permits')
    ensures ThreadOk(ops + [op], permits', t)
  {
    hide StartedAt, WindowAt, CheckedOn;
    match t
    case Minting(_, ticket) =>
      var a: nat :| StartedAt(ops, a, ticket.context.key) && ticket.sendWindow == WindowAt(ops, a, ticket.context.key);
      StartedStays(ops, op, a, ticket.context.key);
    case Dispatching(_, _, permit, ctx) =>
      var trail :| CheckedOn(ops, trail, ctx.key, permits[permit].deadline);
      CheckedStays(ops, op, trail, ctx.key, permits[permit].deadline);
  }

  /** A step keeps the history if everything it adds is accounted for. */
  lemma HistoryExtends(ops: seq<Op>, op: Op, s: State, s': State)
    requires HistoryOk(ops, s) && PermitsExtend(s.permits, s'.permits)
    requires forall t :: t in s'.threads ==> (t in s.threads && s'.threads[t] == s.threads[t]) || ThreadOk(ops + [op], s'.permits, s'.threads[t])
    requires forall i :: |s.permits| <= i < |s'.permits| ==> PermitOk(ops + [op], s'.permits[i].key, s'.permits[i].deadline)
    requires forall p, a :: p in s'.processes && a in s'.processes[p].active ==>
               (p in s.processes && a in s.processes[p].active && s'.processes[p].active[a] == s.processes[p].active[a])
               || GrantOk(s'.permits, s'.processes[p].active[a])
    requires s.invoked <= s'.invoked && forall n :: |s.invoked| <= n < |s'.invoked| ==> InvocationOk(ops + [op], s'.invoked[n])
    ensures HistoryOk(ops + [op], s')
  {
    hide ThreadOk, PermitOk, InvocationOk;
    forall t | t in s'.threads ensures ThreadOk(ops + [op], s'.permits, s'.threads[t]) {
      if t in s.threads && s'.threads[t] == s.threads[t] {
        ThreadStays(ops, op, s.permits, s'.permits, s.threads[t]);
      }
    }
    forall i | 0 <= i < |s.permits| ensures PermitOk(ops + [op], s'.permits[i].key, s'.permits[i].deadline) {
      PermitStays(ops, op, s.permits[i].key, s.permits[i].deadline);
    }
    forall n | 0 <= n < |s.invoked| ensures InvocationOk(ops + [op], s'.invoked[n]) {
      InvocationStays(ops, op, s.invoked[n]);
    }
  }

  lemma StartIsRecorded(ops: seq<Op>, op: Op)
    requires HistoryOk(ops, Reached(ops)) && op.Start?
    ensures HistoryOk(ops + [op], Apply(Reached(ops), op))
  {
    hide Reached, HistoryOk, StartTx, StartIsDue, StartIsUndrifted, ThreadOk;
    var s := Reached(ops);
    var s' := Apply(s, op);
    StartIsGrantedIff(s.d, op.admission, op.env);
    if op.thread !in s.threads && StartTx(s.d, op.admission, op.env).1.Ok? {
      StartedLast(ops, op);
    }
    HistoryExtends(ops, op, s, s');
  }

  lemma StartedLast(ops: seq<Op>, op: Op)
    requires op.Start? && StartTx(Reached(ops).d, op.admission, op.env).1.Ok?
    ensures var t := StartTx(Reached(ops).d, op.admission, op.env).1.value;
            forall process, permits :: ThreadOk(ops + [op], permits, Minting(process, t))
  {
    hide Reached, StartTx;
    StartIsGrantedIff(Reached(ops).d, op.admission, op.env);
    assert (ops + [op])[..|ops|] == ops;
    assert StartedAt(ops + [op], |ops|, op.admission.context.key);
  }

  lemma MintIsRecorded(ops: seq<Op>, op: Op)
    requires HistoryOk(ops, Reached(ops)) && op.Mint?
    ensures HistoryOk(ops + [op], Apply(Reached(ops), op))
  {
    hide Reached, StartedAt, WindowAt;
    var s := Reached(ops);
    var s' := Apply(s, op);
    if op.thread in s.threads && s.threads[op.thread].Minting? {
      var ticket := s.threads[op.thread].ticket;
      assert ThreadOk(ops, s.permits, s.threads[op.thread]);
      var a: nat :| StartedAt(ops, a, ticket.context.key) && ticket.sendWindow == WindowAt(ops, a, ticket.context.key);
      StartIsEarlier(ops, a, ticket.context.key);
      StartedStays(ops, op, a, ticket.context.key);
      assert MintedOn(ops + [op], Trail(a, |ops|, 0, 0), ticket.context.key, op.clock + ticket.sendWindow);
    }
    hide HistoryOk, ThreadOk, MintedOn;
    HistoryExtends(ops, op, s, s');
  }

  lemma StartIsEarlier(ops: seq<Op>, a: nat, k: CallKey)
    requires StartedAt(ops, a, k)
    ensures a < |ops|
  {}

  lemma CheckIsRecorded(ops: seq<Op>, op: Op)
    requires HistoryOk(ops, Reached(ops)) && op.CheckDispatch?
    ensures HistoryOk(ops + [op], Apply(Reached(ops), op))
  {
    hide Reached, DispatchCheck, ThreadOk, HistoryOk, RowOk;
    var s := Reached(ops);
    var s' := Apply(s, op);
    var v := VolatileOf(s, op.process);
    if op.attempt in v.active && v.active[op.attempt].permit == op.permit && DispatchCheck(s.d, v, v.active[op.attempt], op.invocation, op.env) == Ok(true) {
      CheckedLast(ops, op);
    }
    HistoryExtends(ops, op, s, s');
  }

  lemma CheckedLast(ops: seq<Op>, op: Op)
    requires HistoryOk(ops, Reached(ops)) && op.CheckDispatch?
    requires var s := Reached(ops); var v := VolatileOf(s, op.process);
             && op.attempt in v.active && v.active[op.attempt].permit == op.permit
             && DispatchCheck(s.d, v, v.active[op.attempt], op.invocation, op.env) == Ok(true)
    ensures var s := Reached(ops); var ctx := VolatileOf(s, op.process).active[op.attempt].context;
            ThreadOk(ops + [op], s.permits, Dispatching(op.process, op.attempt, op.permit, ctx))
  {
    hide Reached, DispatchCheck, CheckAgrees, MintedOn;
    var s := Reached(ops);
    var v := VolatileOf(s, op.process);
    var g := v.active[op.attempt];
    CheckPassesIff(s.d, v, g, op.invocation, op.env);
    assert GrantOk(s.permits, g);
    var k, deadline := g.context.key, s.permits[g.permit].deadline;
    assert PermitOk(ops, k, deadline);
    var t :| MintedOn(ops, t, k, deadline);
    MintIsEarlier(ops, t, k, deadline);
    MintedStays(ops, op, t, k, deadline);
    var t' := t.(check := |ops|);
    assert MintedOn(ops + [op], t', k, deadline) by { MintIgnoresCheck(ops + [op], t, t', k, deadline); }
    assert (ops + [op])[..|ops|] == ops;
    assert CheckedAt(ops + [op], |ops|, k);
    assert CheckedOn(ops + [op], t', k, deadline);
  }

  lemma MintIsEarlier(ops: seq<Op>, t: Trail, k: CallKey, deadline: int)
    requires MintedOn(ops, t, k, deadline)
    ensures t.mint < |ops|
  {}

  lemma MintIgnoresCheck(ops: seq<Op>, t: Trail, t': Trail, k: CallKey, deadline: int)
    requires MintedOn(ops, t, k, deadline) && t'.start == t.start && t'.mint == t.mint
    ensures MintedOn(ops, t', k, deadline)
  {}

  lemma SendIsRecorded(ops: seq<Op>, op: Op)
    requires HistoryOk(ops, Reached(ops)) && op.Send?
    ensures HistoryOk(ops + [op], Apply(Reached(ops), op))
  {
    hide Reached, ThreadOk, InvocationOk, HistoryOk;
    var s := Reached(ops);
    var s' := Apply(s, op);
    if op.thread in s.threads && s.threads[op.thread].Dispatching? {
      var p := s.threads[op.thread].permit;
      if p < |s.permits| && ConsumePermit(s.permits[p], op.clock).Ok? {
        SentLast(ops, op);
      }
    }
    HistoryExtends(ops, op, s, s');
  }

  lemma SentLast(ops: seq<Op>, op: Op)
    requires HistoryOk(ops, Reached(ops)) && op.Send?
    requires var s := Reached(ops);
             && op.thread in s.threads && s.threads[op.thread].Dispatching?
             && s.threads[op.thread].permit < |s.permits| && ConsumePermit(s.permits[s.threads[op.thread].permit], op.clock).Ok?
    ensures var s := Reached(ops); InvocationOk(ops + [op], s.permits[s.threads[op.thread].permit].key)
  {
    hide Reached, CheckedOn;
    var s := Reached(ops);
    var p := s.permits[s.threads[op.thread].permit];
    PermitIsGoodIff(p, op.clock);
    assert ThreadOk(ops, s.permits, s.threads[op.thread]);
    var t :| CheckedOn(ops, t, p.key, p.deadline);
    CheckIsEarlier(ops, t, p.key, p.deadline);
    CheckedStays(ops, op, t, p.key, p.deadline);
    var t' := t.(send := |ops|);
    CheckIgnoresSend(ops + [op], t, t', p.key, p.deadline);
    assert SentOn(ops + [op], t', p.key);
  }

  lemma CheckIsEarlier(ops: seq<Op>, t: Trail, k: CallKey, deadline: int)
    requires CheckedOn(ops, t, k, deadline)
    ensures t.check < |ops|
  {}

  lemma CheckIgnoresSend(ops: seq<Op>, t: Trail, t': Trail, k: CallKey, deadline: int)
    requires CheckedOn(ops, t, k, deadline) && t'.start == t.start && t'.mint == t.mint && t'.check == t.check
    ensures CheckedOn(ops, t', k, deadline)
  {}

  lemma QuietIsRecorded(ops: seq<Op>, op: Op)
    requires HistoryOk(ops, Reached(ops)) && !op.Start? && !op.Mint? && !op.CheckDispatch? && !op.Send?
    ensures HistoryOk(ops + [op], Apply(Reached(ops), op))
  {
    hide Reached, HistoryOk, ThreadOk;
    QuietLeaves(Reached(ops), op);
    HistoryExtends(ops, op, Reached(ops), Apply(Reached(ops), op));
  }

  lemma QuietLeaves(s: State, op: Op)
    requires !op.Start? && !op.Mint? && !op.CheckDispatch? && !op.Send?
    ensures var s' := Apply(s, op);
            && PermitsExtend(s.permits, s'.permits) && |s'.permits| == |s.permits| && s'.invoked == s.invoked
            && (forall t :: t in s'.threads ==> t in s.threads && s'.threads[t] == s.threads[t])
            && (forall p, a :: p in s'.processes && a in s'.processes[p].active ==>
                  p in s.processes && a in s.processes[p].active && s'.processes[p].active[a] == s.processes[p].active[a])
  {
    hide ClaimTx, CancelTx, RecoverTx, AdminRecoverTx, CompleteTx, FailTx;
    if op.Complete? {
      ReportKeepsGrants(s.d, VolatileOf(s, op.process), op);
    } else if op.Fail? {
      ReportKeepsGrants(s.d, VolatileOf(s, op.process), op);
    }
  }

  lemma ReportKeepsGrants(d: Durable, v: Volatile, op: Op)
    requires op.Complete? || op.Fail?
    ensures op.Complete? ==> CompleteTx(d, v, op.context, op.completion, op.env).1.active == v.active
    ensures op.Fail? ==> FailTx(d, v, op.context, op.failure, op.env).1.active == v.active
  {
    hide PriceCompletion, TerminalFailure, Overruns, GuardsHold;
  }

  lemma {:induction false} RunIsRecorded(ops: seq<Op>)
    ensures HistoryOk(ops, Reached(ops))
    decreases |ops|
  {
    hide HistoryOk, Apply;
    if ops == [] {
      NothingRecorded();
    } else {
      var before, op := ops[..|ops| - 1], ops[|ops| - 1];
      RunIsRecorded(before);
      assert ops == before + [op];
      if op.Start? { StartIsRecorded(before, op); }
      else if op.Mint? { MintIsRecorded(before, op); }
      else if op.CheckDispatch? { CheckIsRecorded(before, op); }
      else if op.Send? { SendIsRecorded(before, op); }
      else { QuietIsRecorded(before, op); }
    }
  }

  lemma NothingRecorded()
    ensures HistoryOk([], Reached([]))
  {}

  /** Every invocation of the provider in every run has its history: a start that was due and not
      drifted, then a permit minted for it, then a check that found the started row under its lease,
      the claimed invocation and no drift, then the send, within the row's send window of the mint. */
  lemma EveryInvocationHasItsHistory(ops: seq<Op>, n: nat) returns (t: Trail)
    requires n < |Reached(ops).invoked|
    ensures var k := Reached(ops).invoked[n];
            && StartedAt(ops, t.start, k) && CheckedAt(ops, t.check, k)
            && t.start < t.mint < t.check < t.send < |ops| && ops[t.mint].Mint? && ops[t.send].Send?
            && ops[t.send].clock < ops[t.mint].clock + Reached(ops[..t.start]).d.calls[k].terms.timing.sendWindow
  {
    RunIsRecorded(ops);
    hide StartedAt, CheckedAt, Reached;
    var k := Reached(ops).invoked[n];
    assert InvocationOk(ops, k);
    t :| SentOn(ops, t, k);
    hide WindowAt;
    WindowIsTheRows(ops, t.start, k);
  }

  lemma WindowIsTheRows(ops: seq<Op>, a: nat, k: CallKey)
    requires StartedAt(ops, a, k)
    ensures k in Reached(ops[..a]).d.calls && WindowAt(ops, a, k) == Reached(ops[..a]).d.calls[k].terms.timing.sendWindow
  {}

  // ---- How a call is settled

  ghost predicate SettledByStore(d: Durable, d': Durable, k: CallKey) {
    || (exists reason: ReasonCode, charge: Charge, now: int :: FailedAs(d, d', k, reason, charge, now))
    || (exists done: Completion, charge: Charge, now: int :: CompletedAs(d, d', k, done, charge, now))
  }

  /** The price of reported usage, for the laws that are stated per charge. */
  function Priced(inTokens: int, outTokens: int, p: Prices): Charge
    requires inTokens >= 0 && outTokens >= 0
  {
    Charge(inTokens, outTokens, TokenCost(inTokens, outTokens, p).value)
  }

  lemma CompletionIsLawful(d: Durable, v: Volatile, ctx: Context, done: Completion, env: Env)
    requires RowOkAt(d, ctx.key)
    ensures var d' := CompleteTx(d, v, ctx, done, env).0; d' == d || SettledByStore(d, d', ctx.key)
  {
    hide CompleteTx, FailedAs, CompletedAs, RowOk, PricedUp, TokenCost, BeyondBudget, CompletionIsUndrifted;
    if CompletionIsDue(d, v, ctx, done, env) {
      var charge := Priced(done.inTokens, done.outTokens, d.calls[ctx.key].terms.prices);
      PricingIsUp(done.inTokens, done.outTokens, d.calls[ctx.key].terms.prices);
      DueCompletion(d, v, ctx, done, env, charge);
    } else {
      CompletionThatIsNotDue(d, v, ctx, done, env);
    }
  }

  lemma PricingIsUp(inTokens: int, outTokens: int, p: Prices)
    requires inTokens >= 0 && outTokens >= 0
    ensures PricedUp(Priced(inTokens, outTokens, p), p)
    ensures Priced(inTokens, outTokens, p).inTokens == inTokens && Priced(inTokens, outTokens, p).outTokens == outTokens
  {
    PriceIsRoundedUp(inTokens, outTokens, TokenCost(inTokens, outTokens, p).value, p);
  }

  lemma FailureIsLawful(d: Durable, v: Volatile, ctx: Context, f: Failure, env: Env)
    requires RowOkAt(d, ctx.key)
    ensures var d' := FailTx(d, v, ctx, f, env).0; d' == d || SettledByStore(d, d', ctx.key)
  {
    hide FailTx, FailedAs, CompletedAs, RowOk, PricedUp, TokenCost;
    if FailureIsDue(d, ctx, f, env) {
      var t := d.calls[ctx.key].terms;
      if f.usage.Some? {
        PricingIsUp(f.usage.value.0, f.usage.value.1, t.prices);
        DueFailure(d, v, ctx, f, env, Priced(f.usage.value.0, f.usage.value.1, t.prices));
      } else {
        DueFailure(d, v, ctx, f, env, t.reserved);
      }
    } else {
      FailureThatIsNotDue(d, v, ctx, f, env);
    }
  }

  /** Whatever the store settles, it settles lawfully. */
  lemma SettlementIsLawful(s: State, op: Op)
    requires RowOkAt(s.d, KeyOf(op)) && (op.Complete? || op.Fail? || op.Cancel? || op.Recover?)
    ensures var d' := Apply(s, op).d; d' == s.d || SettledByStore(s.d, d', KeyOf(op))
  {
    hide RowOk, FailedAs, CompletedAs, CompleteTx, FailTx, CancelTx, RecoverTx;
    match op
    case Complete(p, ctx, done, env) => CompletionIsLawful(s.d, VolatileOf(s, p), ctx, done, env);
    case Fail(p, ctx, f, env) => FailureIsLawful(s.d, VolatileOf(s, p), ctx, f, env);
    case Cancel(ctx, env) => CancellationIsUncharged(s.d, ctx, env);
    case Recover(_, ctx, env) => RecoveryChargesTheReservation(s.d, ctx, env);
  }

  // ---- A running lease is nobody else's

  /** Nobody claims call `k` at or after `expires`, and no operator recovers it. */
  predicate LeaseIsLeftAlone(ops: seq<Op>, k: CallKey, expires: int) {
    forall i :: 0 <= i < |ops| ==> LeavesLeaseAlone(ops[i], k, expires)
  }

  predicate LeavesLeaseAlone(op: Op, k: CallKey, expires: int) {
    (op.Claim? && op.request.key == k ==> op.env.now < expires) && (op.OperatorRecover? ==> op.key != k)
  }

  /** The same token, under the same lease or no longer up for another one. */
  predicate StillLeased(d: Durable, k: CallKey, token: Option<string>, expires: int) {
    && k in d.calls && d.calls[k].leaseToken == token
    && (d.calls[k].status != Claimed || d.calls[k].attempts != 0 || d.calls[k].leaseExpires == expires)
  }

  lemma ClaimKeepsLease(d: Durable, r: Request, env: Env, k: CallKey, token: Option<string>, expires: int)
    requires StillLeased(d, k, token, expires) && (r.key == k ==> env.now < expires)
    ensures StillLeased(ClaimTx(d, r, env).0, k, token, expires)
  {
    hide ClaimTx, MayClaim, Undrifted, Affordable;
    ClaimIsGrantedIff(d, r, env);
    OnlyGrantsChangeTables(d, r, env);
    if IsGrant(ClaimTx(d, r, env).1) {
      GrantLeavesOneRow(d, r, env);
    }
  }

  lemma StartKeepsLease(d: Durable, a: Admission, env: Env, k: CallKey, token: Option<string>, expires: int)
    requires StillLeased(d, k, token, expires) && RowOkAt(d, a.context.key)
    ensures StillLeased(StartTx(d, a, env).0, k, token, expires)
  {
    hide StartTx, RowOk, StartIsDue, StartIsUndrifted, FairlyShared;
    StartIsGrantedIff(d, a, env);
    DriftedStartIsUncharged(d, a, env);
  }

  lemma SettlementKeepsLease(d: Durable, d': Durable, settled: CallKey, k: CallKey, token: Option<string>, expires: int)
    requires StillLeased(d, k, token, expires) && SettledByStore(d, d', settled)
    ensures StillLeased(d', k, token, expires)
  {
    hide FairlyShared;
  }

  lemma StepKeepsLease(s: State, op: Op, k: CallKey, token: Option<string>, expires: int)
    requires StillLeased(s.d, k, token, expires) && RowOkAt(s.d, KeyOf(op)) && LeavesLeaseAlone(op, k, expires)
    ensures StillLeased(Apply(s, op).d, k, token, expires)
  {
    hide StillLeased, RowOk, ClaimTx, StartTx, SettledByStore;
    if op.Claim? {
      ClaimKeepsLease(s.d, op.request, op.env, k, token, expires);
    } else if op.Start? {
      StartKeepsLease(s.d, op.admission, op.env, k, token, expires);
    } else if op.Complete? || op.Fail? || op.Cancel? || op.Recover? {
      hide Apply;
      SettlementIsLawful(s, op);
      if Apply(s, op).d != s.d {
        SettlementKeepsLease(s.d, Apply(s, op).d, KeyOf(op), k, token, expires);
      }
    } else {
      QuietKeepsLease(s, op, k, token, expires);
    }
  }

  lemma QuietKeepsLease(s: State, op: Op, k: CallKey, token: Option<string>, expires: int)
    requires StillLeased(s.d, k, token, expires) && LeavesLeaseAlone(op, k, expires)
    requires !(op.Claim? || op.Start? || op.Complete? || op.Fail? || op.Cancel? || op.Recover?)
    ensures StillLeased(Apply(s, op).d, k, token, expires)
  {
    hide MintPermit, CheckThenDispatch, ConsumeAndSend, ZeroedChildren;
  }

  lemma {:induction false} RunKeepsLease(s: State, ops: seq<Op>, k: CallKey, token: Option<string>, expires: int)
    requires RowsOk(s.d) && StillLeased(s.d, k, token, expires) && LeaseIsLeftAlone(ops, k, expires)
    ensures RowsOk(Run(s, ops).d) && StillLeased(Run(s, ops).d, k, token, expires)
    decreases |ops|
  {
    hide Apply, RowOk, StillLeased, LeavesLeaseAlone;
    if ops != [] {
      var before, op := Run(s, ops[..|ops| - 1]), ops[|ops| - 1];
      RunKeepsLease(s, ops[..|ops| - 1], k, token, expires);
      assert RowOkAt(before.d, KeyOf(op));
      StepKeepsLease(before, op, k, token, expires);
      StepKeepsRows(before, op);
    }
  }

  /** A lease is exclusive until it expires: over every run in which nobody claims the call at or
      after the lease's end and no operator recovers it, whatever else is claimed, started, settled,
      cleared or crashed, the row keeps the token it had. */
  lemma LeaseIsExclusive(before: seq<Op>, after: seq<Op>, k: CallKey)
    requires k in Reached(before).d.calls && LeaseIsLeftAlone(after, k, Reached(before).d.calls[k].leaseExpires)
    ensures k in Reached(before + after).d.calls
    ensures Reached(before + after).d.calls[k].leaseToken == Reached(before).d.calls[k].leaseToken
  {
    hide Apply, Run;
    var c := Reached(before).d.calls[k];
    RunKeepsOneAttempt(before);
    RunKeepsLease(Reached(before), after, k, c.leaseToken, c.leaseExpires);
    RunAppend(INITIAL, before, after);
  }

  // ---- Terminal calls are always replayed

  ghost predicate FailedForOneReason(c: Call) {
    c.status == Failed ==> exists reason :: FailedFor(c, reason)
  }

  ghost predicate ReasonsOk(d: Durable) { forall k :: k in d.calls ==> FailedForOneReason(d.calls[k]) }

  lemma SettlementHasOneReason(d: Durable, d': Durable, k: CallKey)
    requires SettledByStore(d, d', k)
    ensures OnlyRow(d, d', k) && FailedForOneReason(d'.calls[k])
  {
    hide FairlyShared;
    if reason: ReasonCode, charge: Charge, now: int :| FailedAs(d, d', k, reason, charge, now) {
      SharedByChildren(d'.calls[k], charge);
      assert FailedFor(d'.calls[k], reason);
    }
  }

  lemma SharedByChildren(c: Call, charge: Charge)
    requires FairlyShared(c, charge)
    ensures c.children != []
  {}

  lemma StepKeepsReasons(s: State, op: Op)
    requires RowsOk(s.d) && ReasonsOk(s.d)
    ensures ReasonsOk(Apply(s, op).d)
  {
    hide RowOk, FailedForOneReason;
    assert RowOkAt(s.d, KeyOf(op));
    var d' := Apply(s, op).d;
    if op.Complete? || op.Fail? || op.Cancel? || op.Recover? {
      hide Apply;
      SettlementIsLawful(s, op);
      if d' != s.d {
        SettlementHasOneReason(s.d, d', KeyOf(op));
      }
    } else if op.OperatorRecover? {
      OperatorHasOneReason(s.d, op.key, op.now, op.force);
    } else if op.Claim? {
      ClaimHasNoReason(s.d, op.request, op.env);
    } else if op.Start? {
      StartHasOneReason(s.d, op.admission, op.env);
    } else {
      QuietKeepsCalls(s, op);
    }
  }

  lemma OperatorHasOneReason(d: Durable, k: CallKey, now: int, force: bool)
    requires RowOkAt(d, k) && ReasonsOk(d)
    ensures ReasonsOk(AdminRecoverTx(d, k, now, force).0)
  {
    var (d', n) := AdminRecoverTx(d, k, now, force);
    OperatorRecoverySettles(d, k, now, force);
    if n == 1 {
      assert FailedFor(d'.calls[k], ReasonCode.ValidatorUnavailable);
    }
  }

  lemma ClaimHasNoReason(d: Durable, r: Request, env: Env)
    requires ReasonsOk(d)
    ensures ReasonsOk(ClaimTx(d, r, env).0)
  {
    hide ClaimTx, MayClaim, Undrifted, Affordable, FailedFor;
    ClaimIsGrantedIff(d, r, env);
    OnlyGrantsChangeTables(d, r, env);
    if IsGrant(ClaimTx(d, r, env).1) {
      GrantLeavesOneRow(d, r, env);
    }
  }

  lemma StartHasOneReason(d: Durable, a: Admission, env: Env)
    requires RowOkAt(d, a.context.key) && ReasonsOk(d)
    ensures ReasonsOk(StartTx(d, a, env).0)
  {
    hide StartTx, RowOk, StartIsDue, StartIsUndrifted, FairlyShared, FailedAs, FailedFor;
    StartIsGrantedIff(d, a, env);
    DriftedStartIsUncharged(d, a, env);
    var d' := StartTx(d, a, env).0;
    if StartTx(d, a, env).1.Err? && d' != d {
      assert SettledByStore(d, d', a.context.key);
      SettlementHasOneReason(d, d', a.context.key);
    } else if d' != d {
      StartIsOnClaimed(d, a, env);
    }
  }

  lemma StartIsOnClaimed(d: Durable, a: Admission, env: Env)
    requires StartIsDue(d, a, env)
    ensures a.context.key in d.calls && d.calls[a.context.key].status == Claimed
  {}

  lemma QuietKeepsCalls(s: State, op: Op)
    requires !(op.Claim? || op.Start? || op.Complete? || op.Fail? || op.Cancel? || op.Recover? || op.OperatorRecover?)
    ensures Apply(s, op).d.calls == s.d.calls
  {
    hide MintPermit, CheckThenDispatch, ConsumeAndSend;
  }

  lemma {:induction false} RunKeepsReasons(ops: seq<Op>)
    ensures RowsOk(Reached(ops).d) && ReasonsOk(Reached(ops).d)
    decreases |ops|
  {
    hide Apply, RowOk, FailedForOneReason;
    if ops != [] {
      RunKeepsReasons(ops[..|ops| - 1]);
      StepKeepsReasons(Reached(ops[..|ops| - 1]), ops[|ops| - 1]);
      StepKeepsRows(Reached(ops[..|ops| - 1]), ops[|ops| - 1]);
    }
  }

  /** In every reachable state a claim of a terminal call is answered, never refused as corrupt: a
      completed one with its projections, a failed one with the one reason all its children carry. */
  lemma TerminalCallsAreAnswered(ops: seq<Op>, r: Request, env: Env)
    requires var d := Reached(ops).d;
             MayClaim(d, r, env) && r.key in d.calls && d.calls[r.key].terms == SortedTerms(r.terms) && d.calls[r.key].status != Claimed
    ensures var d := Reached(ops).d;
            var c := d.calls[r.key];
            var (d', o) := ClaimTx(d, r, env);
            && d' == d && o.Ok? && o.value.callId == c.id
            && (c.status == Completed ==> AllDecided(c.children) && o.value.kind == ReplayedCompleted(Projections(c.id, c.children, true)))
            && (c.status == Failed ==> exists reason :: FailedFor(c, reason) && o.value.kind == ReplayedFailed(reason))
  {
    hide Reached, MayClaim, RowOk, FailedFor, ClaimTx;
    RunKeepsReasons(ops);
    TerminalCallIsReplayed(Reached(ops).d, r, env);
    assert FailedForOneReason(Reached(ops).d.calls[r.key]);
  }

  // ---- Possibly spent money stays owed

  /** In every reachable state, a recovery and a failure with unknown usage leave what every workflow
      owes exactly as it was. */
  lemma RecoveryReturnsNoMoney(ops: seq<Op>, op: Op, w: WorkflowId)
    requires op.Recover? || (op.Fail? && op.failure.usage.None?)
    ensures Obligation(Apply(Reached(ops), op).d.calls, w) == Obligation(Reached(ops).d.calls, w)
  {
    hide Reached, RowOk, FailedAs, RecoverTx, FailTx, Obligation, FlaggedFor;
    RunKeepsOneAttempt(ops);
    var s := Reached(ops);
    assert RowOkAt(s.d, KeyOf(op));
    if op.Recover? {
      RecoveryChargesTheReservation(s.d, op.context, op.env);
      if Apply(s, op).d != s.d {
        UnknownSpendingStaysOwed(s.d, Apply(s, op).d, op.context.key, ReasonCode.ValidatorUnavailable, op.env.now, w);
      }
    } else if FailureIsDue(s.d, op.context, op.failure, op.env) {
      DueFailure(s.d, VolatileOf(s, op.process), op.context, op.failure, op.env, s.d.calls[op.context.key].terms.reserved);
      UnknownSpendingStaysOwed(s.d, Apply(s, op).d, op.context.key, op.failure.reason, op.env.now, w);
    } else {
      FailureThatIsNotDue(s.d, VolatileOf(s, op.process), op.context, op.failure, op.env);
    }
  }

  // ---- What a step is

  /** The call a step is about, settled in the tables, is settled for its process in the same step; a
      refused recovery changes nothing; operators' settlements are remembered; a crash takes a process
      and its threads, and nothing of the tables. */
  lemma StepsAreTransactions(s: State, op: Op)
    ensures op.Claim? ==> Apply(s, op) == s.(d := ClaimTx(s.d, op.request, op.env).0)
    ensures op.Complete? ==>
              var (d', v', _) := CompleteTx(s.d, VolatileOf(s, op.process), op.context, op.completion, op.env);
              Apply(s, op) == s.(d := d', processes := s.processes[op.process := v'])
    ensures op.Fail? ==>
              var (d', v', _) := FailTx(s.d, VolatileOf(s, op.process), op.context, op.failure, op.env);
              Apply(s, op) == s.(d := d', processes := s.processes[op.process := v'])
    ensures op.Cancel? ==> Apply(s, op) == s.(d := CancelTx(s.d, op.context, op.env).0)
    ensures op.Recover? ==>
              && Apply(s, op).d == RecoverTx(s.d, op.context, op.env).0
              && (RecoverTx(s.d, op.context, op.env).1.Err? ==> Apply(s, op) == s)
    ensures op.OperatorRecover? ==>
              Apply(s, op) == s.(d := AdminRecoverTx(s.d, op.key, op.now, op.force).0,
                                 operatorRecovered := if AdminRecoverTx(s.d, op.key, op.now, op.force).1 == 0 then s.operatorRecovered
                                                      else s.operatorRecovered + {op.key})
    ensures op.AuthorizeInitial? ==> Apply(s, op) == s.(d := AuthorizeInitialTx(s.d, op.policy, op.env).0)
    ensures op.ClearBreaker? ==> Apply(s, op) == s.(d := ClearBreakerTx(s.d, op.expectedVersion, op.policy, op.env).0)
    ensures op.Crash? ==>
              var s' := Apply(s, op);
              && s'.d == s.d && s'.permits == s.permits && s'.invoked == s.invoked && VolatileOf(s', op.process) == NO_VOLATILE
              && (forall p :: p != op.process ==> (p in s'.processes <==> p in s.processes) && (p in s.processes ==> s'.processes[p] == s.processes[p]))
              && (forall t :: t in s'.threads <==> t in s.threads && s.threads[t].process != op.process)
              && (forall t :: t in s'.threads ==> s'.threads[t] == s.threads[t])
  {
    hide ClaimTx, CompleteTx, FailTx, CancelTx, AdminRecoverTx, AuthorizeInitialTx, ClearBreakerTx;
    if op.Recover? {
      RecoveryRefusesWhole(s.d, op.context, op.env);
    }
    hide RecoverTx;
  }

  lemma RecoveryRefusesWhole(d: Durable, ctx: Context, env: Env)
    ensures RecoverTx(d, ctx, env).1.Err? ==> RecoverTx(d, ctx, env).0 == d
  {
    hide TerminalFailure;
  }

  // ---- One step of a grant

  /** Minting turns the ticket of a committed start into one permit and the grant that holds it. */
  lemma MintLeavesOneGrant(s: State, thread: nat, clock: int)
    requires thread in s.threads && s.threads[thread].Minting?
    ensures var s' := Apply(s, Mint(thread, clock));
            var process, t := s.threads[thread].process, s.threads[thread].ticket;
            var v, v' := VolatileOf(s, process), VolatileOf(s', process);
            && s'.d == s.d && s'.invoked == s.invoked && s'.threads == s.threads - {thread}
            && s'.permits == s.permits + [Permit(t.attempt, clock + t.sendWindow, false, false, t.context.key)]
            && v' == v.(active := v.active[t.attempt := Grant(|s.permits|, t.context)], guards := v.guards[t.context.id := t.guards])
            && (forall p :: p in s.processes && p != process ==> p in s'.processes && s'.processes[p] == s.processes[p])
  {}

  /** A check of a held grant lets one thread through, or voids grant and permit, or reads nothing and
      changes nothing. */
  lemma CheckDecidesTheGrant(s: State, op: Op)
    requires op.CheckDispatch? && op.thread !in s.threads && op.permit < |s.permits|
    requires op.attempt in VolatileOf(s, op.process).active && VolatileOf(s, op.process).active[op.attempt].permit == op.permit
    ensures var s' := Apply(s, op);
            var v := VolatileOf(s, op.process);
            var g := v.active[op.attempt];
            && s'.d == s.d && s'.invoked == s.invoked
            && if !CheckCanRead(s.d, g, op.env) then s' == s
               else if CheckAgrees(s.d, v, g, op.invocation, op.env) then
                 s' == s.(threads := s.threads[op.thread := Dispatching(op.process, op.attempt, op.permit, g.context)])
               else
                 && s'.threads == s.threads && s'.permits == s.permits[op.permit := s.permits[op.permit].(invalidated := true)]
                 && VolatileOf(s', op.process) == v.(active := v.active - {op.attempt})
  {
    var v := VolatileOf(s, op.process);
    CheckPassesIff(s.d, v, v.active[op.attempt], op.invocation, op.env);
    hide DispatchCheck;
  }

  /** A send spends the grant, and reaches the provider exactly if the permit is good at that moment. */
  lemma SendSpendsTheGrant(s: State, thread: nat, clock: int)
    requires thread in s.threads && s.threads[thread].Dispatching? && s.threads[thread].permit < |s.permits|
    ensures var s' := Apply(s, Send(thread, clock));
            var t := s.threads[thread]; var p := s.permits[t.permit];
            var v, v' := VolatileOf(s, t.process), VolatileOf(s', t.process);
            var good := !p.consumed && !p.invalidated && clock < p.deadline;
            && s'.d == s.d && s'.threads == s.threads - {thread} && v'.active == v.active - {t.attempt} && v'.guards == v.guards
            && s'.invoked == s.invoked + (if good then [p.key] else [])
            && s'.permits == (if good then s.permits[t.permit := p.(consumed := true)] else s.permits)
            && v'.dispatched == v.dispatched + (if good then {t.context.id} else {})
  {
    PermitIsGoodIff(s.permits[s.threads[thread].permit], clock);
    hide ConsumePermit;
  }

  // ---- Settled calls are not sent

  /** No check passes once the call is settled: whatever is sent was checked before. */
  lemma ChecksPrecedeSettlement(ops: seq<Op>, c: nat, settled: nat, k: CallKey)
    requires CheckedAt(ops, c, k) && settled <= |ops|
    requires k in Reached(ops[..settled]).d.calls && Reached(ops[..settled]).d.calls[k].status != Claimed
    ensures c < settled
  {
    if settled <= c {
      assert ops[..c] == ops[..settled] + ops[settled..c];
      TerminalRowsAreFrozen(ops[..settled], ops[settled..c], k);
    }
  }

  predicate Voided(s: State, i: nat, k: CallKey) {
    i < |s.permits| && s.permits[i].key == k && s.permits[i].invalidated && !s.permits[i].consumed
  }

  lemma StepKeepsVoided(s: State, op: Op, i: nat, k: CallKey)
    requires Voided(s, i, k)
    ensures Voided(Apply(s, op), i, k)
  {
    hide ClaimTx, StartTx, CompleteTx, FailTx, CancelTx, RecoverTx, AdminRecoverTx, DispatchCheck;
  }

  lemma {:induction false} RunKeepsVoided(s: State, ops: seq<Op>, i: nat, k: CallKey)
    requires Voided(s, i, k)
    ensures Voided(Run(s, ops), i, k)
    decreases |ops|
  {
    hide Apply, Voided;
    if ops != [] {
      RunKeepsVoided(s, ops[..|ops| - 1], i, k);
      StepKeepsVoided(Run(s, ops[..|ops| - 1]), ops[|ops| - 1], i, k);
    }
  }

  lemma RecoveryVoids(s: State, op: Op, a: string)
    requires op.Recover? && RecoverTx(s.d, op.context, op.env).1.Ok?
    requires a in VolatileOf(s, op.process).active && VolatileOf(s, op.process).active[a].context == op.context
    requires var i := VolatileOf(s, op.process).active[a].permit;
             i < |s.permits| && s.permits[i].key == op.context.key && !s.permits[i].consumed
    ensures Voided(Apply(s, op), VolatileOf(s, op.process).active[a].permit, op.context.key)
    ensures a !in VolatileOf(Apply(s, op), op.process).active
  {
    hide RecoverTx;
    assert VolatileOf(s, op.process).active[a] == Grant(VolatileOf(s, op.process).active[a].permit, op.context);
  }

  /** A process that recovers a call whose permit it still holds has fenced it off: no later run, in
      whatever process and with whatever threads past their check, sends the call. */
  lemma RecoveryFencesOff(before: seq<Op>, op: Op, a: string, after: seq<Op>)
    requires var s := Reached(before);
             && op.Recover? && RecoverTx(s.d, op.context, op.env).1.Ok?
             && a in VolatileOf(s, op.process).active && VolatileOf(s, op.process).active[a].context == op.context
             && (VolatileOf(s, op.process).active[a].permit < |s.permits| ==> !s.permits[VolatileOf(s, op.process).active[a].permit].consumed)
    ensures op.context.key !in Reached(before + [op] + after).invoked
  {
    hide Apply, Run, HistoryOk, RecoverTx;
    var s := Reached(before);
    var g := VolatileOf(s, op.process).active[a];
    RunIsRecorded(before);
    GrantIsOk(before, s, op.process, a);
    RecoveryVoids(s, op, a);
    assert Reached(before + [op]) == Apply(s, op) by { OneMore(before, op); }
    RunKeepsVoided(Reached(before + [op]), after, g.permit, op.context.key);
    RunAppend(INITIAL, before + [op], after);
    RunKeepsOneAttempt(before + [op] + after);
    UnspentIsUnsent(Reached(before + [op] + after), g.permit, op.context.key);
  }

  lemma OneMore(ops: seq<Op>, op: Op)
    ensures Reached(ops + [op]) == Apply(Reached(ops), op)
  {
    hide Apply;
    assert (ops + [op])[..|ops|] == ops;
  }

  lemma GrantIsOk(ops: seq<Op>, s: State, p: nat, a: string)
    requires HistoryOk(ops, s) && a in VolatileOf(s, p).active
    ensures GrantOk(s.permits, VolatileOf(s, p).active[a])
  {}

  lemma UnspentIsUnsent(s: State, i: nat, k: CallKey)
    requires OneAttempt(s) && Voided(s, i, k)
    ensures k !in s.invoked
  {
    forall n | 0 <= n < |s.invoked| ensures s.invoked[n] != k {
      assert SpentPermit(s, s.invoked[n]);
      var j :| 0 <= j < |s.permits| && s.permits[j].key == s.invoked[n] && s.permits[j].consumed;
    }
  }

  /** Recovery takes from its process what it holds for the recovered call, and nothing else. */
  lemma RecoveryTouchesOnlyItsCall(s: State, op: Op)
    requires op.Recover? && RecoverTx(s.d, op.context, op.env).1.Ok?
    ensures var s' := Apply(s, op); var v, v' := VolatileOf(s, op.process), VolatileOf(s', op.process);
            && s'.threads == s.threads && s'.invoked == s.invoked && |s'.permits| == |s.permits|
            && (forall i :: 0 <= i < |s.permits| ==>
                 s'.permits[i] == s.permits[i].(invalidated := s.permits[i].invalidated || exists a :: a in v.active && v.active[a] == Grant(i, op.context)))
            && (forall p :: p != op.process ==> (p in s'.processes <==> p in s.processes) && (p in s.processes ==> s'.processes[p] == s.processes[p]))
            && (forall a :: a in v'.active <==> a in v.active && v.active[a].context != op.context)
            && (forall a :: a in v'.active ==> v'.active[a] == v.active[a])
            && v'.dispatched == v.dispatched - {op.context.id} && v'.guards == v.guards - {op.context.id}
  {
    hide RecoverTx;
  }

  // ---- A cancelled workflow

  predicate Cancelled(d: Durable, w: WorkflowId) { w in d.workflows && d.workflows[w].cancelled }

  lemma StepKeepsCancelled(s: State, op: Op, w: WorkflowId)
    requires RowOkAt(s.d, KeyOf(op)) && Cancelled(s.d, w)
    ensures Cancelled(Apply(s, op).d, w)
  {
    hide RowOk, ClaimTx, StartTx, CompleteTx, FailTx, CancelTx, RecoverTx, Conserves, Settles, Inserts, Releases, Starts;
    match op
    case Claim(r, env) => ClaimEffect(s.d, r, env);
    case Start(_, _, a, env) => StartEffect(s.d, a, env);
    case Complete(p, ctx, done, env) => CompleteEffect(s.d, VolatileOf(s, p), ctx, done, env);
    case Fail(p, ctx, f, env) => FailEffect(s.d, VolatileOf(s, p), ctx, f, env);
    case Cancel(ctx, env) => CancelEffect(s.d, ctx, env);
    case Recover(_, ctx, env) => RecoverEffect(s.d, ctx, env);
    case _ =>
      hide MintPermit, CheckThenDispatch, ConsumeAndSend, ZeroedChildren;
  }

  lemma {:induction false} RunKeepsCancelled(s: State, ops: seq<Op>, w: WorkflowId)
    requires RowsOk(s.d) && Cancelled(s.d, w)
    ensures RowsOk(Run(s, ops).d) && Cancelled(Run(s, ops).d, w)
    decreases |ops|
  {
    hide Apply, RowOk, Cancelled;
    if ops != [] {
      var before, op := Run(s, ops[..|ops| - 1]), ops[|ops| - 1];
      RunKeepsCancelled(s, ops[..|ops| - 1], w);
      assert RowOkAt(before.d, KeyOf(op));
      StepKeepsCancelled(before, op, w);
      StepKeepsRows(before, op);
    }
  }

  lemma CancelsItsWorkflow(s: State, w: WorkflowId)
    requires w in s.d.workflows
    ensures Cancelled(Apply(s, CancelThread(w)).d, w)
    ensures Apply(s, CancelThread(w)).d.calls == s.d.calls && Apply(s, CancelThread(w)).d.safety == s.d.safety
    ensures forall other :: other in s.d.workflows && other != w ==>
              other in Apply(s, CancelThread(w)).d.workflows && Apply(s, CancelThread(w)).d.workflows[other] == s.d.workflows[other]
  {}

  /** Once a workflow is cancelled, in every later state none of its calls is claimed anew, started,
      let through to the provider, or completed; what was sent is still charged. */
  lemma CancelledWorkflowIsClosed(before: seq<Op>, w: WorkflowId, after: seq<Op>, v: Volatile, env: Env)
    requires w in Reached(before).d.workflows
    ensures var d := Reached(before + [CancelThread(w)] + after).d;
            && (forall r: Request :: r.key.workflow == w ==> !IsGrant(ClaimTx(d, r, env).1))
            && (forall a: Admission :: a.context.key.workflow == w ==> StartTx(d, a, env).1.Err?)
            && (forall g: Grant, inv :: g.context.key.workflow == w ==> DispatchCheck(d, v, g, inv, env) != Ok(true))
            && (forall ctx: Context, done :: ctx.key.workflow == w && CompletionIsDue(d, v, ctx, done, env) ==>
                 var d' := CompleteTx(d, v, ctx, done, env).0; ctx.key in d'.calls && d'.calls[ctx.key].status == Failed)
  {
    hide Apply, Run, RowOk, ClaimTx, StartTx, DispatchCheck, CompleteTx;
    RunKeepsOneAttempt(before + [CancelThread(w)]);
    OneMore(before, CancelThread(w));
    CancelsItsWorkflow(Reached(before), w);
    RunKeepsCancelled(Reached(before + [CancelThread(w)]), after, w);
    RunAppend(INITIAL, before + [CancelThread(w)], after);
    var d := Reached(before + [CancelThread(w)] + after).d;
    hide Cancelled;
    forall r: Request | r.key.workflow == w ensures !IsGrant(ClaimTx(d, r, env).1) {
      CancelledIsNotClaimed(d, r, env);
    }
    forall a: Admission | a.context.key.workflow == w ensures StartTx(d, a, env).1.Err? {
      CancelledIsNotStarted(d, a, env);
    }
    forall g: Grant, inv | g.context.key.workflow == w ensures DispatchCheck(d, v, g, inv, env) != Ok(true) {
      CancelledIsNotSent(d, v, g, inv, env);
    }
    forall ctx: Context, done | ctx.key.workflow == w && CompletionIsDue(d, v, ctx, done, env)
      ensures var d' := CompleteTx(d, v, ctx, done, env).0; ctx.key in d'.calls && d'.calls[ctx.key].status == Failed
    {
      assert RowOkAt(d, ctx.key);
      CancelledIsNotCompleted(d, v, ctx, done, env);
    }
  }

  lemma CancelledIsNotClaimed(d: Durable, r: Request, env: Env)
    requires Cancelled(d, r.key.workflow)
    ensures !IsGrant(ClaimTx(d, r, env).1)
  {
    ClaimIsGrantedIff(d, r, env);
    hide ClaimTx;
  }

  lemma CancelledIsNotStarted(d: Durable, a: Admission, env: Env)
    requires Cancelled(d, a.context.key.workflow)
    ensures StartTx(d, a, env).1.Err?
  {
    StartIsGrantedIff(d, a, env);
    hide StartTx;
  }

  lemma CancelledIsNotSent(d: Durable, v: Volatile, g: Grant, inv: Invocation, env: Env)
    requires Cancelled(d, g.context.key.workflow)
    ensures DispatchCheck(d, v, g, inv, env) != Ok(true)
  {
    CheckPassesIff(d, v, g, inv, env);
    hide DispatchCheck;
  }

  lemma CancelledIsNotCompleted(d: Durable, v: Volatile, ctx: Context, done: Completion, env: Env)
    requires Cancelled(d, ctx.key.workflow) && RowOkAt(d, ctx.key) && CompletionIsDue(d, v, ctx, done, env)
    ensures var d' := CompleteTx(d, v, ctx, done, env).0; ctx.key in d'.calls && d'.calls[ctx.key].status == Failed
  {
    hide CompleteTx, RowOk, PricedUp, TokenCost, BeyondBudget, FairlyShared;
    var charge := Priced(done.inTokens, done.outTokens, d.calls[ctx.key].terms.prices);
    PricingIsUp(done.inTokens, done.outTokens, d.calls[ctx.key].terms.prices);
    DueCompletion(d, v, ctx, done, env, charge);
    assert !CompletionIsUndrifted(d, v, ctx, env);
  }
}
