/** The provider-safety breaker: its event log determines its row, and its version cannot come back,
    so a version comparison at dispatch sees every opening and clearing since the claim. */
module BreakerHistory {
  import opened Outcomes
  import opened CostAllocation
  import opened AutoReviewPolicy
  import opened ValidationProtocol
  import opened CallRows
  import opened ValidationSystem
  import opened ProtocolSafety

  /** Breaker flag and overrun count, rebuilt from the event kinds alone. */
  function Replayed(events: seq<SafetyEvent>): (bool, nat) {
    if events == [] then (false, 0)
    else
      var (open, overruns) := Replayed(events[..|events| - 1]);
      match events[|events| - 1].kind
      case InitialAuthorized => (false, 0)
      case BudgetOverrun => (true, overruns + 1)
      case BreakerCleared => (false, overruns)
  }

  /** Events are numbered from one, each starts at the version the previous one left, and each
      records the flag the log so far replays to and the flag it leaves. */
  predicate Chained(events: seq<SafetyEvent>) {
    forall i :: 0 <= i < |events| ==>
      && events[i].sequence == i + 1 && events[i].prior == i && events[i].next == i + 1
      && events[i].priorOpen == Replayed(events[..i]).0
      && events[i].nextOpen == Replayed(events[..i + 1]).0
      && (events[i].kind == InitialAuthorized <==> i == 0)
  }

  /** Version, last sequence and event count agree, and the log replays to the row. */
  predicate BreakerOk(d: Durable) {
    && Chained(d.events)
    && (d.safety.None? <==> d.events == [])
    && (d.safety.Some? ==>
        && d.safety.value.version == d.safety.value.lastSequence == |d.events|
        && (d.safety.value.open, d.safety.value.overruns) == Replayed(d.events))
  }

  lemma ChainExtends(events: seq<SafetyEvent>, e: SafetyEvent)
    requires Chained(events)
    requires e.sequence == |events| + 1 && e.prior == |events| && e.next == |events| + 1
    requires e.priorOpen == Replayed(events).0 && (e.kind == InitialAuthorized <==> events == [])
    requires e.nextOpen == (e.kind == BudgetOverrun)
    ensures Chained(events + [e])
    ensures Replayed(events + [e]).0 == e.nextOpen
    ensures Replayed(events + [e]).1 == if e.kind == InitialAuthorized then 0 else Replayed(events).1 + if e.kind == BudgetOverrun then 1 else 0
  {
    var longer := events + [e];
    assert longer[..|longer| - 1] == events;
    forall i | 0 <= i < |longer|
      ensures longer[i].priorOpen == Replayed(longer[..i]).0 && longer[i].nextOpen == Replayed(longer[..i + 1]).0
    {
      if i < |events| {
        assert longer[..i] == events[..i] && longer[..i + 1] == events[..i + 1];
      } else {
        assert longer[..i] == events && longer[..i + 1] == longer;
      }
    }
  }

  /** A logged change: one event from the row's version to the next, and a row that says so. */
  ghost predicate Logged(d: Durable, d': Durable, e: SafetyEvent) {
    && d'.events == d.events + [e]
    && e.sequence == |d.events| + 1 && e.prior == |d.events| && e.next == |d.events| + 1
    && e.nextOpen == (e.kind == BudgetOverrun)
    && (d.safety.None? <==> e.kind == InitialAuthorized)
    && (d.safety.None? ==> !e.priorOpen)
    && (d.safety.Some? ==> e.priorOpen == d.safety.value.open)
    && d'.safety.Some?
    && var s' := d'.safety.value;
       && s'.version == s'.lastSequence == |d.events| + 1
       && s'.open == e.nextOpen
       && s'.overruns == (if d.safety.None? then 0 else d.safety.value.overruns) + if e.kind == BudgetOverrun then 1 else 0
  }

  ghost predicate BreakerStep(d: Durable, d': Durable) {
    || BreakerKept(d, d')
    || (|d'.events| == |d.events| + 1 && Logged(d, d', d'.events[|d.events|]))
  }

  lemma BreakerEffect(s: State, op: Op)
    requires RowOkAt(s.d, KeyOf(op)) && BreakerOk(s.d)
    ensures BreakerStep(s.d, Apply(s, op).d)
  {
    if op.Claim? || op.Start? {
      OpeningBreaker(s, op);
    } else if op.Complete? || op.Fail? {
      ReportingBreaker(s, op);
    } else if op.Cancel? || op.Recover? || op.OperatorRecover? {
      ClosingBreaker(s, op);
    } else {
      OperatorBreaker(s, op);
    }
  }

  lemma OpeningBreaker(s: State, op: Op)
    requires (op.Claim? || op.Start?) && RowOkAt(s.d, KeyOf(op))
    ensures BreakerKept(s.d, Apply(s, op).d)
  {
    hide ClaimTx;
    match op
    case Claim(r, env) => ClaimEffect(s.d, r, env);
    case Start(_, _, a, env) => StartEffect(s.d, a, env);
  }

  lemma ReportingBreaker(s: State, op: Op)
    requires (op.Complete? || op.Fail?) && RowOkAt(s.d, KeyOf(op)) && BreakerOk(s.d)
    ensures BreakerStep(s.d, Apply(s, op).d)
  {
    hide CompleteTx;
    hide FailTx;
    match op
    case Complete(p, ctx, done, env) => CompleteEffect(s.d, VolatileOf(s, p), ctx, done, env);
    case Fail(p, ctx, f, env) => FailEffect(s.d, VolatileOf(s, p), ctx, f, env);
  }

  lemma ClosingBreaker(s: State, op: Op)
    requires (op.Cancel? || op.Recover? || op.OperatorRecover?) && RowOkAt(s.d, KeyOf(op))
    ensures BreakerKept(s.d, Apply(s, op).d)
  {
    hide CancelTx;
    hide RecoverTx;
    hide AdminRecoverTx;
    match op
    case Cancel(ctx, env) => CancelEffect(s.d, ctx, env);
    case Recover(_, ctx, env) => RecoverEffect(s.d, ctx, env);
    case OperatorRecover(key, now, force) => AdminRecoverEffect(s.d, key, now, force);
  }

  lemma OperatorBreaker(s: State, op: Op)
    requires !(op.Claim? || op.Start? || op.Complete? || op.Fail? || op.Cancel? || op.Recover? || op.OperatorRecover?)
    requires BreakerOk(s.d)
    ensures BreakerStep(s.d, Apply(s, op).d)
  {
    hide MintPermit, CheckThenDispatch, ConsumeAndSend, Chained, Replayed;
  }

  lemma LoggedKeepsOk(d: Durable, d': Durable, e: SafetyEvent)
    requires BreakerOk(d) && Logged(d, d', e)
    ensures BreakerOk(d') && d.events <= d'.events
  {
    assert Replayed([]) == (false, 0);
    hide Chained, Replayed;
    ChainExtends(d.events, e);
  }

  lemma BreakerStepKeepsOk(d: Durable, d': Durable)
    requires BreakerOk(d) && BreakerStep(d, d')
    ensures BreakerOk(d') && d.events <= d'.events
  {
    hide Chained, Replayed, Logged;
    if !BreakerKept(d, d') {
      LoggedKeepsOk(d, d', d'.events[|d.events|]);
    }
  }

  lemma {:induction false} RunKeepsBreaker(s: State, ops: seq<Op>)
    requires RowsOk(s.d) && BreakerOk(s.d)
    ensures RowsOk(Run(s, ops).d) && BreakerOk(Run(s, ops).d) && s.d.events <= Run(s, ops).d.events
    decreases |ops|
  {
    hide RowOk;
    hide Apply;
    if ops != [] {
      var before := Run(s, ops[..|ops| - 1]);
      var op := ops[|ops| - 1];
      RunKeepsBreaker(s, ops[..|ops| - 1]);
      assert RowOkAt(before.d, KeyOf(op));
      BreakerEffect(before, op);
      BreakerStepKeepsOk(before.d, Apply(before, op).d);
      StepKeepsRows(before, op);
    }
  }

  /** Over any run: version, last sequence and event count agree; events chain version to version;
      the log replays to the breaker flag and overrun count; and the log is only ever extended. */
  lemma BreakerLogDeterminesRow(before: seq<Op>, after: seq<Op>)
    ensures BreakerOk(Reached(before + after).d)
    ensures Reached(before).d.events <= Reached(before + after).d.events
  {
    RunKeepsBreaker(INITIAL, before);
    RunKeepsBreaker(Reached(before), after);
    RunAppend(INITIAL, before, after);
  }

  /** ABA-freedom. A call was claimed after `before`; later, after any further steps, its dispatch
      check passes or it completes. Then the breaker is closed and its whole event log is the one
      at the claim: it was not opened, and not opened and cleared again, in between. */
  lemma NoBreakerEventSinceClaim(before: seq<Op>, claim: Op, after: seq<Op>, k: CallKey, use: Op)
    requires var s := Reached(before); claim.Claim? && k == claim.request.key && k !in s.d.calls && k in Apply(s, claim).d.calls
    requires var s := Reached(before + [claim] + after); PassesDispatch(s, use, k) || CompletesCall(s, use, k)
    ensures Reached(before + [claim] + after).d.events == Reached(before).d.events
    ensures Reached(before).d.safety.Some? && !Reached(before).d.safety.value.open
    ensures Reached(before + [claim] + after).d.safety.Some? && !Reached(before + [claim] + after).d.safety.value.open
  {
    hide Apply;
    hide RowOk;
    var s := Reached(before);
    var s1 := Apply(s, claim);
    RunKeepsBreaker(INITIAL, before);
    ClaimFixesVersion(s, claim);
    RunOne(s, claim);
    RunAppend(INITIAL, before, [claim]);
    RunAppend(INITIAL, before + [claim], after);
    var s2 := Run(s1, after);
    RunKeepsBreaker(s1, after);
    RowsPersist(s1, after, k);
    UseSeesTheClaimedVersion(s2, use, k);
  }

  lemma RunOne(s: State, op: Op)
    ensures Run(s, [op]) == Apply(s, op)
  {}

  lemma ClaimFixesVersion(s: State, claim: Op)
    requires RowsOk(s.d) && BreakerOk(s.d) && claim.Claim?
    requires claim.request.key !in s.d.calls && claim.request.key in Apply(s, claim).d.calls
    ensures var d' := Apply(s, claim).d;
            && BreakerKept(s.d, d') && BreakerOk(d') && RowsOk(d')
            && s.d.safety.Some? && !s.d.safety.value.open
            && d'.calls[claim.request.key].terms.safetyVersion == s.d.safety.value.version
  {
    hide ClaimTx;
    assert RowOkAt(s.d, claim.request.key);
    ClaimEffect(s.d, claim.request, claim.env);
    StepKeepsRows(s, claim);
  }

  predicate PassesDispatch(s: State, use: Op, k: CallKey) {
    && use.CheckDispatch? && use.thread !in s.threads
    && use.attempt in VolatileOf(s, use.process).active
    && var g := VolatileOf(s, use.process).active[use.attempt];
       g.context.key == k && DispatchCheck(s.d, VolatileOf(s, use.process), g, use.invocation, use.env) == Ok(true)
  }

  ghost predicate CompletesCall(s: State, use: Op, k: CallKey) {
    && use.Complete? && use.context.key == k && k in s.d.calls && s.d.calls[k].status == Claimed
    && k in Apply(s, use).d.calls && Apply(s, use).d.calls[k].status == Completed
  }

  lemma UseSeesTheClaimedVersion(s: State, use: Op, k: CallKey)
    requires RowsOk(s.d) && (PassesDispatch(s, use, k) || CompletesCall(s, use, k))
    ensures s.d.safety.Some? && !s.d.safety.value.open && k in s.d.calls && s.d.safety.value.version == s.d.calls[k].terms.safetyVersion
  {
    if CompletesCall(s, use, k) {
      hide Apply;
      assert RowOkAt(s.d, k);
      StepEffect(s, use);
    }
  }
}
