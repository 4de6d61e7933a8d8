/** Lease fencing in the ledger over whole runs, and the one guard the ledger lacks. */
module LedgerFencing {
  import opened Outcomes
  import opened CostAllocation
  import opened AutoReviewPolicy
  import opened ValidationProtocol
  import opened ValidationLedger

  datatype LedgerOp =
    | Claim(request: Request, now: int, token: string)
    | Start(admission: Admission, now: int, clock: int, commits: bool)
    | Dispatch(attempt: string, grant: nat, invocation: Invocation, now: int, clock: int)
    | Complete(context: Context, completion: Completion, now: int)
    | Cancel(context: Context)
    | Recover(context: Context, now: int)
    | Fail(context: Context, failure: Failure)

  /** The ledger with its history: every token ever offered, every call sent to the provider. */
  datatype History = History(ledger: Ledger, issued: set<string>, sent: seq<CallKey>)

  const START := History(EMPTY, {}, [])

  ghost function After(l: Ledger, op: LedgerOp): Ledger {
    match op
    case Claim(r, now, token) => LedgerClaim(l, r, now, token).0
    case Start(a, now, clock, commits) => LedgerStart(l, a, now, clock, commits).0
    case Dispatch(attempt, grant, inv, now, clock) => LedgerDispatch(l, attempt, grant, inv, now, clock).0
    case Complete(ctx, done, now) => LedgerComplete(l, ctx, done, now).0
    case Cancel(ctx) => LedgerCancel(l, ctx).0
    case Recover(ctx, now) => LedgerRecover(l, ctx, now).0
    case Fail(ctx, f) => LedgerFail(l, ctx, f).0
  }

  /** The calls a step sends to the provider. */
  function Sends(l: Ledger, op: LedgerOp): seq<CallKey> {
    if op.Dispatch? && LedgerDispatch(l, op.attempt, op.grant, op.invocation, op.now, op.clock).1.Ok?
    then [l.grants[op.attempt].key]
    else []
  }

  ghost function Step(h: History, op: LedgerOp): History {
    History(After(h.ledger, op), if op.Claim? then h.issued + {op.token} else h.issued, h.sent + Sends(h.ledger, op))
  }

  ghost function Play(h: History, ops: seq<LedgerOp>): History
    decreases |ops|
  {
    if ops == [] then h else Step(Play(h, ops[..|ops| - 1]), ops[|ops| - 1])
  }

  // ---- Rows and grants

  predicate RowStays(c: LedgerCall, c': LedgerCall) {
    && c'.id == c.id && c'.request == c.request
    && c'.attempts >= c.attempts
    && (c'.token == c.token || c.attempts == 0)
  }

  /** Each step touches one row; rows never vanish, and attempts never go back. */
  ghost predicate LedgerStep(l: Ledger, l': Ledger, k: CallKey) {
    || l'.calls == l.calls
    || (&& k in l'.calls && l'.calls == l.calls[k := l'.calls[k]]
        && (k in l.calls ==> RowStays(l.calls[k], l'.calls[k]))
        && (k !in l.calls ==> l'.calls[k].attempts == 0))
  }

  predicate GrantsShrink(l: Ledger, l': Ledger) {
    forall a :: a in l'.grants ==> a in l.grants && l'.grants[a] == l.grants[a]
  }

  function Touched(l: Ledger, op: LedgerOp): CallKey {
    match op
    case Claim(r, _, _) => r.key
    case Start(a, _, _, _) => a.context.key
    case Dispatch(attempt, _, _, _, _) => if attempt in l.grants then l.grants[attempt].key else CallKey("", "")
    case Complete(ctx, _, _) => ctx.key
    case Cancel(ctx) => ctx.key
    case Recover(ctx, _) => ctx.key
    case Fail(ctx, _) => ctx.key
  }

  lemma ClaimShape(l: Ledger, op: LedgerOp)
    requires op.Claim?
    ensures LedgerStep(l, After(l, op), op.request.key) && After(l, op).grants == l.grants
    ensures var l' := After(l, op);
            l'.calls == l.calls || (&& op.request.key in l'.calls && l'.calls[op.request.key].token == op.token
                                    && l'.calls[op.request.key].dispatched == (op.request.key in l.calls && l.calls[op.request.key].dispatched))
    ensures var l' := After(l, op); op.request.key in l.calls && l'.calls != l.calls ==>
              (var c := l.calls[op.request.key];
               && c.attempts == 0 && c.status == Claimed && c.leaseExpires <= op.now
               && l'.calls[op.request.key].status == Claimed && l'.calls[op.request.key].attempts == 0)
  {
    hide ReservationValid;
  }

  lemma StartShape(l: Ledger, op: LedgerOp)
    requires op.Start?
    ensures var (l', g) := LedgerStart(l, op.admission, op.now, op.clock, op.commits); var k := op.admission.context.key;
            && LedgerStep(l, l', k)
            && (g.Err? ==> l' == l)
            && (g.Ok? ==> k in l.calls && k in l'.calls && l.calls[k].attempts == 0 && l'.calls[k].attempts == 1
                          && l'.calls[k].dispatched == l.calls[k].dispatched
                          && l'.calls[k].token == l.calls[k].token == op.admission.context.token
                          && g.value.key == k && l'.grants == l.grants[AttemptId(l.calls[k].token) := g.value])
  {}

  lemma DispatchShape(l: Ledger, op: LedgerOp)
    requires op.Dispatch?
    ensures var l' := After(l, op); var k := Touched(l, op);
            && LedgerStep(l, l', k)
            && (Sends(l, op) == [] ==> l'.calls == l.calls && GrantsShrink(l, l'))
            && (Sends(l, op) != [] ==> Sends(l, op) == [k] && op.attempt in l.grants && l.grants[op.attempt].key == k
                                       && k in l.calls && l'.calls[k] == l.calls[k].(dispatched := true)
                                       && op.now < l.calls[k].leaseExpires && l'.grants == l.grants - {op.attempt})
  {}

  ghost predicate SettleOk(l: Ledger, l': Ledger, k: CallKey) {
    && LedgerStep(l, l', k) && GrantsShrink(l, l')
    && (l'.calls != l.calls ==> k in l.calls && l.calls[k].status == Claimed && l'.calls[k].token == l.calls[k].token
                                && l'.calls[k].attempts == l.calls[k].attempts && l'.calls[k].dispatched == l.calls[k].dispatched)
  }

  lemma CompleteShape(l: Ledger, ctx: Context, done: Completion, now: int)
    ensures SettleOk(l, LedgerComplete(l, ctx, done, now).0, ctx.key)
  {
    hide LedgerPrice;
    hide LedgerOverruns;
  }

  lemma CancelShape(l: Ledger, ctx: Context)
    ensures SettleOk(l, LedgerCancel(l, ctx).0, ctx.key)
  {}

  lemma RecoverShape(l: Ledger, ctx: Context, now: int)
    ensures SettleOk(l, LedgerRecover(l, ctx, now).0, ctx.key)
  {}

  lemma FailShape(l: Ledger, ctx: Context, f: Failure)
    ensures SettleOk(l, LedgerFail(l, ctx, f).0, ctx.key)
  {}

  lemma SettleShape(l: Ledger, op: LedgerOp)
    requires op.Complete? || op.Cancel? || op.Recover? || op.Fail?
    ensures SettleOk(l, After(l, op), Touched(l, op))
  {
    hide SettleOk, LedgerComplete, LedgerCancel, LedgerRecover, LedgerFail;
    match op
    case Complete(ctx, done, now) => CompleteShape(l, ctx, done, now);
    case Cancel(ctx) => CancelShape(l, ctx);
    case Recover(ctx, now) => RecoverShape(l, ctx, now);
    case Fail(ctx, f) => FailShape(l, ctx, f);
  }

  /** A call's attempt is held by one live grant or has been sent, never both, never twice. */
  ghost predicate LedgerOk(h: History) {
    && (forall a :: a in h.ledger.grants ==> HoldsAttempt(h.ledger, h.ledger.grants[a].key) && h.ledger.grants[a].key !in h.sent)
    && (forall a, b :: a in h.ledger.grants && b in h.ledger.grants && a != b ==> h.ledger.grants[a].key != h.ledger.grants[b].key)
    && (forall n :: 0 <= n < |h.sent| ==> HoldsAttempt(h.ledger, h.sent[n]))
    && (forall n, m :: 0 <= n < m < |h.sent| ==> h.sent[n] != h.sent[m])
    && (forall k :: k in h.ledger.calls ==> RowKnown(h, k))
  }

  predicate RowKnown(h: History, k: CallKey)
    requires k in h.ledger.calls
  {
    var c := h.ledger.calls[k];
    c.attempts <= 1 && c.token in h.issued && (c.dispatched ==> k in h.sent)
  }

  predicate HoldsAttempt(l: Ledger, k: CallKey) {
    k in l.calls && l.calls[k].attempts == 1
  }

  lemma QuietKeepsOk(h: History, h': History, k: CallKey)
    requires LedgerOk(h) && LedgerStep(h.ledger, h'.ledger, k) && GrantsShrink(h.ledger, h'.ledger)
    requires h'.sent == h.sent && h.issued <= h'.issued
    requires k in h'.ledger.calls ==> RowKnown(h', k)
    ensures LedgerOk(h')
  {}

  lemma StartKeepsOk(h: History, op: LedgerOp)
    requires LedgerOk(h) && op.Start?
    ensures LedgerOk(Step(h, op))
  {
    hide LedgerStart;
    hide AttemptId;
    StartShape(h.ledger, op);
    var h' := Step(h, op);
    var k := op.admission.context.key;
    assert h'.sent == h.sent;
    forall a | a in h.ledger.grants ensures HoldsAttempt(h'.ledger, h.ledger.grants[a].key) {
      assert HoldsAttempt(h.ledger, h.ledger.grants[a].key);
    }
    forall n | 0 <= n < |h'.sent| ensures HoldsAttempt(h'.ledger, h'.sent[n]) {
      assert HoldsAttempt(h.ledger, h.sent[n]);
    }
    forall o | o in h'.ledger.calls ensures RowKnown(h', o) {
      assert RowKnown(h, o);
    }
  }

  lemma DispatchKeepsOk(h: History, op: LedgerOp)
    requires LedgerOk(h) && op.Dispatch?
    ensures LedgerOk(Step(h, op))
  {
    hide LedgerDispatch;
    DispatchShape(h.ledger, op);
    var h' := Step(h, op);
    if Sends(h.ledger, op) == [] {
      QuietKeepsOk(h, h', Touched(h.ledger, op));
    } else {
      assert HoldsAttempt(h.ledger, Touched(h.ledger, op));
      forall n | 0 <= n < |h'.sent| ensures HoldsAttempt(h'.ledger, h'.sent[n]) {
        assert n < |h.sent| ==> HoldsAttempt(h.ledger, h.sent[n]);
      }
      forall a | a in h'.ledger.grants ensures HoldsAttempt(h'.ledger, h'.ledger.grants[a].key) {
        assert HoldsAttempt(h.ledger, h.ledger.grants[a].key);
      }
      forall o | o in h'.ledger.calls ensures RowKnown(h', o) {
        assert RowKnown(h, o);
        assert Touched(h.ledger, op) in h'.sent;
      }
    }
  }

  lemma OtherKeepsOk(h: History, op: LedgerOp)
    requires LedgerOk(h) && !op.Start? && !op.Dispatch?
    ensures LedgerOk(Step(h, op))
  {
    hide After;
    var k := Touched(h.ledger, op);
    assert k in h.ledger.calls ==> RowKnown(h, k);
    if op.Claim? {
      ClaimShape(h.ledger, op);
    } else {
      SettleShape(h.ledger, op);
    }
    assert Step(h, op).sent == h.sent;
    QuietKeepsOk(h, Step(h, op), Touched(h.ledger, op));
  }

  lemma StepKeepsOk(h: History, op: LedgerOp)
    requires LedgerOk(h)
    ensures LedgerOk(Step(h, op))
  {
    hide Step;
    if op.Start? {
      StartKeepsOk(h, op);
    } else if op.Dispatch? {
      DispatchKeepsOk(h, op);
    } else {
      OtherKeepsOk(h, op);
    }
  }

  lemma {:induction false} PlayKeepsOk(h: History, ops: seq<LedgerOp>)
    requires LedgerOk(h)
    ensures LedgerOk(Play(h, ops))
    decreases |ops|
  {
    hide Step;
    if ops != [] {
      PlayKeepsOk(h, ops[..|ops| - 1]);
      StepKeepsOk(Play(h, ops[..|ops| - 1]), ops[|ops| - 1]);
    }
  }

  /** Over any run of the ledger each call is sent to the provider at most once. */
  lemma LedgerSendsAtMostOnce(ops: seq<LedgerOp>)
    ensures forall n, m :: 0 <= n < m < |Play(START, ops).sent| ==> Play(START, ops).sent[n] != Play(START, ops).sent[m]
  {
    PlayKeepsOk(START, ops);
  }

  // ---- Time: sends strictly before expiry, recoveries at or after it

  /** Every accepted send happens strictly before its call's lease expires, every accepted
      recovery at or after it; a recovered call has no grant left. */
  lemma LeaseSeparatesSendsFromRecoveries(l: Ledger, op: LedgerOp)
    ensures op.Dispatch? && Sends(l, op) != [] ==> Sends(l, op)[0] in l.calls && op.now < l.calls[Sends(l, op)[0]].leaseExpires
    ensures op.Recover? && LedgerRecover(l, op.context, op.now).1.Ok? ==>
              && op.context.key in l.calls && l.calls[op.context.key].leaseExpires <= op.now
              && forall a :: a in After(l, op).grants ==> After(l, op).grants[a].key != op.context.key
  {}

  ghost predicate Ungranted(h: History, k: CallKey) {
    && k in h.ledger.calls && h.ledger.calls[k].attempts == 1
    && forall a :: a in h.ledger.grants ==> h.ledger.grants[a].key != k
  }

  lemma StepKeepsUngranted(h: History, op: LedgerOp, k: CallKey)
    requires LedgerOk(h) && Ungranted(h, k)
    ensures Ungranted(Step(h, op), k)
    ensures forall n :: |h.sent| <= n < |Step(h, op).sent| ==> Step(h, op).sent[n] != k
  {
    if op.Claim? {
      ClaimShape(h.ledger, op);
    } else if op.Start? {
      StartShape(h.ledger, op);
    } else if op.Dispatch? {
      DispatchShape(h.ledger, op);
    } else {
      SettleShape(h.ledger, op);
    }
    hide LedgerClaim;
    hide LedgerStart;
    hide LedgerDispatch;
    hide LedgerComplete;
    hide LedgerCancel;
    hide LedgerRecover;
    hide LedgerFail;
    hide AttemptId;
  }

  /** After a recovery the call is never sent again, whatever the clocks do and whoever still holds
      its grant or its token. */
  lemma {:induction false} RecoveredCallsAreNeverSent(before: seq<LedgerOp>, recover: LedgerOp, after: seq<LedgerOp>)
    requires recover.Recover? && LedgerRecover(Play(START, before).ledger, recover.context, recover.now).1.Ok?
    ensures var h := Step(Play(START, before), recover);
            var h' := Play(h, after);
            && Ungranted(h', recover.context.key) && h.sent <= h'.sent
            && forall n :: |h.sent| <= n < |h'.sent| ==> h'.sent[n] != recover.context.key
    decreases |after|
  {
    hide LedgerPrice;
    hide LedgerOverruns;
    PlayKeepsOk(START, before);
    var h := Step(Play(START, before), recover);
    StepKeepsOk(Play(START, before), recover);
    if after != [] {
      var shorter := after[..|after| - 1];
      RecoveredCallsAreNeverSent(before, recover, shorter);
      PlayKeepsOk(h, shorter);
      StepKeepsUngranted(Play(h, shorter), after[|after| - 1], recover.context.key);
    }
  }

  lemma {:induction false} PlayAppend(h: History, first: seq<LedgerOp>, more: seq<LedgerOp>)
    ensures Play(h, first + more) == Play(Play(h, first), more)
    decreases |more|
  {
    hide Step;
    if more == [] {
      assert first + more == first;
    } else {
      PlayAppend(h, first, more[..|more| - 1]);
      assert (first + more)[..|first + more| - 1] == first + more[..|more| - 1];
    }
  }

  /** A started row keeps its attempt and its lease. */
  predicate StartedWithLease(l: Ledger, k: CallKey, lease: int) {
    k in l.calls && l.calls[k].attempts == 1 && l.calls[k].leaseExpires == lease
  }

  lemma StepKeepsLease(h: History, op: LedgerOp, k: CallKey, lease: int)
    requires StartedWithLease(h.ledger, k, lease)
    ensures StartedWithLease(Step(h, op).ledger, k, lease)
  {
    hide LedgerPrice, LedgerOverruns, ReservationValid, AdmissionMatches, AttemptId;
  }

  lemma {:induction false} PlayKeepsLease(h: History, ops: seq<LedgerOp>, k: CallKey, lease: int)
    requires StartedWithLease(h.ledger, k, lease)
    ensures StartedWithLease(Play(h, ops).ledger, k, lease)
    decreases |ops|
  {
    hide Step, StartedWithLease;
    if ops != [] {
      PlayKeepsLease(h, ops[..|ops| - 1], k, lease);
      StepKeepsLease(Play(h, ops[..|ops| - 1]), ops[|ops| - 1], k, lease);
    }
  }

  predicate Sent(l: Ledger, op: LedgerOp, k: CallKey) { op.Dispatch? && k in Sends(l, op) }

  predicate Recovered(l: Ledger, op: LedgerOp, k: CallKey) {
    op.Recover? && op.context.key == k && LedgerRecover(l, op.context, op.now).1.Ok?
  }

  lemma SendIsBeforeExpiry(h: History, op: LedgerOp, k: CallKey)
    requires LedgerOk(h) && Sent(h.ledger, op, k)
    ensures k in h.ledger.calls && op.now < h.ledger.calls[k].leaseExpires
    ensures StartedWithLease(h.ledger, k, h.ledger.calls[k].leaseExpires)
  {
    DispatchShape(h.ledger, op);
    hide LedgerDispatch;
  }

  lemma RecoveryIsAfterExpiry(l: Ledger, op: LedgerOp, k: CallKey)
    requires Recovered(l, op, k)
    ensures k in l.calls && l.calls[k].leaseExpires <= op.now
  {}

  lemma ReachedIsOk(ops: seq<LedgerOp>)
    ensures LedgerOk(Play(START, ops))
  {
    PlayKeepsOk(START, ops);
  }

  /** Over every run, a call that is both sent and recovered is sent first, and at an earlier time. */
  lemma SendsPrecedeRecoveries(ops: seq<LedgerOp>, i: nat, j: nat, k: CallKey)
    requires i < |ops| && Sent(Play(START, ops[..i]).ledger, ops[i], k)
    requires j < |ops| && Recovered(Play(START, ops[..j]).ledger, ops[j], k)
    ensures i < j && ops[i].now < ops[j].now
  {
    hide Play, LedgerOk, Sends, LedgerRecover;
    var h := Play(START, ops[..i]);
    ReachedIsOk(ops[..i]);
    SendIsBeforeExpiry(h, ops[i], k);
    RecoveryIsAfterExpiry(Play(START, ops[..j]).ledger, ops[j], k);
    if i < j {
      PlayAppend(START, ops[..i], ops[i..j]);
      assert ops[..j] == ops[..i] + ops[i..j];
      PlayKeepsLease(h, ops[i..j], k, h.ledger.calls[k].leaseExpires);
    } else if j < i {
      RecoveredIsUngranted(ops, j, i, k);
    }
  }

  lemma RecoveredIsUngranted(ops: seq<LedgerOp>, j: nat, i: nat, k: CallKey)
    requires j < i < |ops| && Recovered(Play(START, ops[..j]).ledger, ops[j], k)
    ensures !Sent(Play(START, ops[..i]).ledger, ops[i], k)
  {
    hide Step, Play, Sent, Sends, LedgerRecover;
    PlaySplits(ops, j, i);
    DispatchNeedsGrant(Play(START, ops[..i]).ledger, ops[i], k);
    RecoveredCallsAreNeverSent(ops[..j], ops[j], ops[j + 1..i]);
  }

  lemma PlaySplits(ops: seq<LedgerOp>, j: nat, i: nat)
    requires j < i <= |ops|
    ensures Play(START, ops[..i]) == Play(Step(Play(START, ops[..j]), ops[j]), ops[j + 1..i])
  {
    hide Step, Play;
    PlayOne(Play(START, ops[..j]), ops[j]);
    PlayAppend(START, ops[..j], [ops[j]]);
    PlayAppend(START, ops[..j] + [ops[j]], ops[j + 1..i]);
    assert ops[..i] == ops[..j] + [ops[j]] + ops[j + 1..i];
  }

  lemma PlayOne(h: History, op: LedgerOp)
    ensures Play(h, [op]) == Step(h, op)
  {
    assert [op][..0] == [];
  }

  lemma DispatchNeedsGrant(l: Ledger, op: LedgerOp, k: CallKey)
    ensures Sent(l, op, k) ==> exists a :: a in l.grants && l.grants[a].key == k
  {}

  // ---- Fencing by token

  /** The token factory never repeats itself. */
  ghost predicate FreshTokens(h: History, ops: seq<LedgerOp>)
    decreases |ops|
  {
    ops != [] ==>
      var shorter := ops[..|ops| - 1];
      FreshTokens(h, shorter) && (ops[|ops| - 1].Claim? ==> ops[|ops| - 1].token !in Play(h, shorter).issued)
  }

  /** The call has moved on from this token. */
  predicate Superseded(h: History, k: CallKey, token: string) {
    token in h.issued && k in h.ledger.calls && h.ledger.calls[k].token != token
  }

  predicate Uses(op: LedgerOp, k: CallKey, token: string) {
    match op
    case Start(a, _, _, _) => a.context.key == k && a.context.token == token
    case Complete(ctx, _, _) => ctx.key == k && ctx.token == token
    case Cancel(ctx) => ctx.key == k && ctx.token == token
    case Recover(ctx, _) => ctx.key == k && ctx.token == token
    case Fail(ctx, _) => ctx.key == k && ctx.token == token
    case _ => false
  }

  lemma {:induction false} SupersededForever(h: History, ops: seq<LedgerOp>, k: CallKey, token: string)
    requires Superseded(h, k, token) && FreshTokens(h, ops)
    ensures Superseded(Play(h, ops), k, token)
    decreases |ops|
  {
    if ops != [] {
      var shorter := ops[..|ops| - 1];
      SupersededForever(h, shorter, k, token);
      TokenStaysSuperseded(Play(h, shorter), ops[|ops| - 1], k, token);
    }
  }

  lemma TokenStaysSuperseded(h: History, op: LedgerOp, k: CallKey, token: string)
    requires Superseded(h, k, token) && (op.Claim? ==> op.token !in h.issued)
    ensures Superseded(Step(h, op), k, token)
  {
    if op.Claim? {
      ClaimShape(h.ledger, op);
    } else if op.Start? {
      StartShape(h.ledger, op);
    } else if op.Dispatch? {
      DispatchShape(h.ledger, op);
    } else {
      SettleShape(h.ledger, op);
    }
    hide LedgerClaim, LedgerStart, LedgerDispatch, LedgerComplete, LedgerCancel, LedgerRecover, LedgerFail, AttemptId;
  }

  /** Lease fencing: once a call has been leased again, the superseded token can never again start,
      complete, fail, cancel or recover it; such a step changes nothing at all. */
  lemma SupersededTokenIsFencedOff(before: seq<LedgerOp>, after: seq<LedgerOp>, k: CallKey, token: string, late: LedgerOp)
    requires Superseded(Play(START, before), k, token) && FreshTokens(Play(START, before), after)
    requires Uses(late, k, token)
    ensures var h := Play(Play(START, before), after);
            Step(h, late) == h
  {
    SupersededForever(Play(START, before), after, k, token);
    LateStepIsRefused(Play(Play(START, before), after), late, k, token);
  }

  lemma LateStepIsRefused(h: History, late: LedgerOp, k: CallKey, token: string)
    requires Superseded(h, k, token) && Uses(late, k, token)
    ensures Step(h, late) == h
  {}

  /** A re-lease is only granted once the old lease ran out unstarted, and it supersedes the token. */
  lemma ReleaseSupersedes(h: History, r: Request, now: int, token: string)
    requires LedgerOk(h) && r.key in h.ledger.calls && token !in h.issued
    ensures var c := h.ledger.calls[r.key];
            var h' := Step(h, Claim(r, now, token));
            h'.ledger.calls[r.key] != c ==>
              c.leaseExpires <= now && c.attempts == 0 && c.status == Claimed && Superseded(h', r.key, c.token)
  {}

  /** From a second lease on, the first token is dead: no step that uses it, after any further run,
      changes anything. */
  lemma ReleasedTokenIsFencedOff(before: seq<LedgerOp>, r: Request, now: int, token: string, after: seq<LedgerOp>, late: LedgerOp)
    requires var h := Play(START, before);
             && r.key in h.ledger.calls && token !in h.issued
             && Step(h, Claim(r, now, token)).ledger.calls[r.key] != h.ledger.calls[r.key]
             && FreshTokens(Step(h, Claim(r, now, token)), after)
             && Uses(late, r.key, h.ledger.calls[r.key].token)
    ensures var h := Play(Step(Play(START, before), Claim(r, now, token)), after);
            Step(h, late) == h
  {
    var h := Play(START, before);
    var first := h.ledger.calls[r.key].token;
    PlayKeepsOk(START, before);
    ReleaseSupersedes(h, r, now, token);
    hide Step, Play, FreshTokens, Superseded, LedgerOk;
    SupersededForever(Step(h, Claim(r, now, token)), after, r.key, first);
    LateStepIsRefused(Play(Step(h, Claim(r, now, token)), after), late, r.key, first);
  }

  // ---- The missing status guard

  /** What a caller can check before starting or dispatching: the call is still open. */
  predicate OpenFor(l: Ledger, op: LedgerOp) {
    Touched(l, op) in l.calls && l.calls[Touched(l, op)].status == Claimed
  }

  /** A start of call `k` meets every test the ledger makes, the status not being one. */
  predicate StartPasses(l: Ledger, a: Admission, now: int, commits: bool, k: CallKey) {
    && a.context.key == k && k in l.calls
    && var c := l.calls[k];
       && a.context.id == c.id && a.context.token == c.token
       && c.attempts == 0 && now < c.leaseExpires && AdmissionMatches(c.request.terms, a) && commits
  }

  /** A dispatch meets every test for call `k`: the named live grant, an unexpired lease, the prepared
      invocation, and a permit that is fresh and in time. */
  predicate DispatchPasses(l: Ledger, attempt: string, grant: nat, inv: Invocation, now: int, clock: int, k: CallKey) {
    && attempt in l.grants && l.grants[attempt].id == grant && l.grants[attempt].key == k && k in l.calls
    && var c, p, t := l.calls[k], l.grants[attempt].permit, l.calls[k].request.terms;
       && now < c.leaseExpires && inv == Invocation(t.contentHmac, t.characters, t.framedIn, t.maxOut)
       && !p.consumed && !p.invalidated && clock < p.deadline
  }

  predicate PassesWithoutStatus(l: Ledger, op: LedgerOp, k: CallKey) {
    match op
    case Start(a, now, _, commits) => StartPasses(l, a, now, commits, k)
    case Dispatch(attempt, grant, inv, now, clock) => DispatchPasses(l, attempt, grant, inv, now, clock, k)
    case _ => false
  }

  lemma PassingIsSucceeding(l: Ledger, op: LedgerOp, k: CallKey)
    ensures PassesWithoutStatus(l, op, k) <==>
            (op.Start? && op.admission.context.key == k && LedgerStart(l, op.admission, op.now, op.clock, op.commits).1.Ok?)
            || (op.Dispatch? && k in Sends(l, op))
  {
    hide AttemptId, AdmissionMatches;
  }

  /** Terminal rows are left alone by every operation except exactly these: a start that meets all
      its tests, and a dispatch that meets all its tests. Neither tests the status. */
  lemma TerminalRowChangesIff(h: History, op: LedgerOp, k: CallKey)
    requires LedgerOk(h) && k in h.ledger.calls && h.ledger.calls[k].status != Claimed
    ensures k in After(h.ledger, op).calls
    ensures After(h.ledger, op).calls[k] != h.ledger.calls[k] <==> PassesWithoutStatus(h.ledger, op, k)
  {
    PassingIsSucceeding(h.ledger, op, k);
    hide PassesWithoutStatus;
    SucceedingChangesTerminalRow(h, op, k);
  }

  lemma SucceedingChangesTerminalRow(h: History, op: LedgerOp, k: CallKey)
    requires LedgerOk(h) && k in h.ledger.calls && h.ledger.calls[k].status != Claimed
    ensures k in After(h.ledger, op).calls
    ensures After(h.ledger, op).calls[k] != h.ledger.calls[k] <==>
            (op.Start? && op.admission.context.key == k && LedgerStart(h.ledger, op.admission, op.now, op.clock, op.commits).1.Ok?)
            || (op.Dispatch? && k in Sends(h.ledger, op))
  {
    assert RowKnown(h, k);
    hide LedgerPrice;
    hide LedgerOverruns;
    hide ReservationValid;
    if op.Claim? {
      ClaimShape(h.ledger, op);
    } else if op.Start? {
      StartShape(h.ledger, op);
    } else if op.Dispatch? {
      DispatchShape(h.ledger, op);
    } else {
      SettleShape(h.ledger, op);
    }
    if op.Dispatch? && LedgerDispatch(h.ledger, op.attempt, op.grant, op.invocation, op.now, op.clock).1.Ok? && k == Touched(h.ledger, op) {
      assert Sends(h.ledger, op) == [k];
      assert k in Sends(h.ledger, op);
    }
  }

  lemma OpenChecksRestoreTheGuard(h: History, op: LedgerOp, k: CallKey)
    requires LedgerOk(h) && (op.Start? || op.Dispatch? ==> OpenFor(h.ledger, op))
    ensures k in h.ledger.calls && h.ledger.calls[k].status != Claimed ==> k in After(h.ledger, op).calls && After(h.ledger, op).calls[k] == h.ledger.calls[k]
    ensures k in Sends(h.ledger, op) ==> h.ledger.calls[k].status == Claimed
  {
    hide LedgerPrice;
    hide LedgerOverruns;
    hide ReservationValid;
    if op.Claim? {
      ClaimShape(h.ledger, op);
    } else if op.Start? {
      StartShape(h.ledger, op);
    } else if op.Dispatch? {
      DispatchShape(h.ledger, op);
    } else {
      SettleShape(h.ledger, op);
    }
  }

  ghost predicate FrozenThrough(h: History, ops: seq<LedgerOp>, k: CallKey)
    requires k in h.ledger.calls
  {
    forall i :: 0 <= i <= |ops| ==> k in Play(h, ops[..i]).ledger.calls && Play(h, ops[..i]).ledger.calls[k] == h.ledger.calls[k]
  }

  /** No step of the run meets its tests for call `k`. */
  ghost predicate NeverPasses(h: History, ops: seq<LedgerOp>, k: CallKey) {
    forall i :: 0 <= i < |ops| ==> !PassesWithoutStatus(Play(h, ops[..i]).ledger, ops[i], k)
  }

  /** Over a whole run a terminal row stays as it is exactly when no step of the run passes. */
  lemma {:induction false} TerminalRowIsFrozenIff(h: History, ops: seq<LedgerOp>, k: CallKey)
    requires LedgerOk(h) && k in h.ledger.calls && h.ledger.calls[k].status != Claimed
    ensures FrozenThrough(h, ops, k) <==> NeverPasses(h, ops, k)
    decreases |ops|
  {
    if ops == [] {
      assert ops[..0] == [];
    } else {
      var shorter, last := ops[..|ops| - 1], ops[|ops| - 1];
      TerminalRowIsFrozenIff(h, shorter, k);
      PlayKeepsOk(h, shorter);
      FrozenExtends(h, ops, k);
      PassingExtends(h, ops, k);
      if FrozenThrough(h, shorter, k) {
        FrozenIsFrozenAtEnd(h, shorter, k);
      }
      assert Play(h, ops) == Step(Play(h, shorter), last);
      hide LedgerOk, After, Sends, PassesWithoutStatus, FrozenThrough, NeverPasses, Play;
      if FrozenThrough(h, shorter, k) {
        TerminalRowChangesIff(Play(h, shorter), last, k);
      }
    }
  }

  lemma FrozenIsFrozenAtEnd(h: History, ops: seq<LedgerOp>, k: CallKey)
    requires k in h.ledger.calls && FrozenThrough(h, ops, k)
    ensures k in Play(h, ops).ledger.calls && Play(h, ops).ledger.calls[k] == h.ledger.calls[k]
  {
    hide Play;
    assert ops[..|ops|] == ops;
  }

  lemma PassingExtends(h: History, ops: seq<LedgerOp>, k: CallKey)
    requires ops != []
    ensures NeverPasses(h, ops, k) <==>
            NeverPasses(h, ops[..|ops| - 1], k) && !PassesWithoutStatus(Play(h, ops[..|ops| - 1]).ledger, ops[|ops| - 1], k)
  {
    hide Play, PassesWithoutStatus;
    var shorter := ops[..|ops| - 1];
    forall i | 0 <= i < |shorter| ensures shorter[..i] == ops[..i] && shorter[i] == ops[i] {}
  }

  lemma FrozenExtends(h: History, ops: seq<LedgerOp>, k: CallKey)
    requires k in h.ledger.calls && ops != []
    ensures FrozenThrough(h, ops, k) <==>
            FrozenThrough(h, ops[..|ops| - 1], k) && k in Play(h, ops).ledger.calls && Play(h, ops).ledger.calls[k] == h.ledger.calls[k]
  {
    hide Play;
    var shorter := ops[..|ops| - 1];
    assert ops[..|ops|] == ops;
    forall i | 0 <= i <= |shorter| ensures shorter[..i] == ops[..i] {}
  }

  /** A run in which every start and every dispatch is preceded by that check. */
  ghost predicate Checked(h: History, ops: seq<LedgerOp>)
    decreases |ops|
  {
    ops != [] ==>
      var shorter := ops[..|ops| - 1];
      var op := ops[|ops| - 1];
      Checked(h, shorter) && (op.Start? || op.Dispatch? ==> OpenFor(Play(h, shorter).ledger, op))
  }

  /** Callers that check for an open call before every start and every dispatch get the store's
      guarantee over whole runs: a terminal row never changes again and is never sent again. */
  lemma {:induction false} CheckedRunsFreezeTerminalRows(h: History, ops: seq<LedgerOp>, k: CallKey)
    requires LedgerOk(h) && Checked(h, ops) && k in h.ledger.calls && h.ledger.calls[k].status != Claimed
    ensures var h' := Play(h, ops);
            && k in h'.ledger.calls && h'.ledger.calls[k] == h.ledger.calls[k]
            && h.sent <= h'.sent && forall n :: |h.sent| <= n < |h'.sent| ==> h'.sent[n] != k
    decreases |ops|
  {
    hide LedgerOk;
    hide After;
    hide Sends;
    if ops != [] {
      var shorter := ops[..|ops| - 1];
      CheckedRunsFreezeTerminalRows(h, shorter, k);
      PlayKeepsOk(h, shorter);
      OpenChecksRestoreTheGuard(Play(h, shorter), ops[|ops| - 1], k);
    }
  }

  // A concrete run: claim, cancel before the start, then start and dispatch all the same.

  const REQUEST := Request(CallKey("w", "b"),
    Terms([Candidate(1, "k")], "content", 10, 100, Charge(100, 10, 320), 6_000, 10, Prices(2_000_000, 12_000_000), 1, "key",
          Timing(60, 5, 120, 30), Ceilings(0, 1_000, 1_000), 2, 5))
  const CONTEXT := Context(1, REQUEST.key, "token")
  const ADMISSION := Admission(CONTEXT, "content", 10, 100, 10, 320, "key", Timing(60, 5, 120, 30), NO_GUARDS)

  /** Without the check the guarantee fails: a cancelled call, charged nothing, reaches the provider. */
  lemma CancelledCallCanBeSent()
    ensures var cancelled := LedgerCancel(LedgerClaim(EMPTY, REQUEST, 0, "token").0, CONTEXT).0;
            var started := LedgerStart(cancelled, ADMISSION, 1, 0, true).0;
            var sent := LedgerDispatch(started, AttemptId("token"), 0, Invocation("content", 10, 100, 10), 2, 1);
            && REQUEST.key in cancelled.calls && cancelled.calls[REQUEST.key].status == Failed
            && sent.1 == Ok(REQUEST.key)
            && sent.0.calls[REQUEST.key].status == Failed && sent.0.calls[REQUEST.key].charged == Some(ZERO_CHARGE)
  {
    assert TokenCost(100, 10, Prices(2_000_000, 12_000_000)) == Ok(320);
    assert ReservationValid(REQUEST.terms);
  }
}
