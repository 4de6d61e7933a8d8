/** Safety of the validation protocol over whole runs. Every theorem quantifies over all
    interleavings of all steps of `ValidationSystem.Op`, including crashes and operators, and over
    everything the environment may answer. */
module ProtocolSafety {
  import opened Outcomes
  import opened Sorting
  import opened Sums
  import opened CostAllocation
  import opened AutoReviewPolicy
  import opened ValidationProtocol
  import opened CallRows
  import opened ValidationSystem

  ghost function Reached(ops: seq<Op>): State {
    Run(INITIAL, ops)
  }

  // ---- At most one provider invocation per call

  predicate Attempted(d: Durable, k: CallKey) {
    k in d.calls && d.calls[k].attempts == 1
  }

  /** A call's one attempt is held by at most one of: a thread about to mint, or one permit; and a
      call reaches the provider only through its consumed permit. */
  ghost predicate OneAttempt(s: State) {
    && (forall t :: t in s.threads && s.threads[t].Minting? ==> Attempted(s.d, s.threads[t].ticket.context.key))
    && (forall t, i :: t in s.threads && s.threads[t].Minting? && 0 <= i < |s.permits|
          ==> s.permits[i].key != s.threads[t].ticket.context.key)
    && (forall t, u :: t in s.threads && u in s.threads && t != u && s.threads[t].Minting? && s.threads[u].Minting?
          ==> s.threads[t].ticket.context.key != s.threads[u].ticket.context.key)
    && (forall i :: 0 <= i < |s.permits| ==> Attempted(s.d, s.permits[i].key))
    && (forall i, j :: 0 <= i < j < |s.permits| ==> s.permits[i].key != s.permits[j].key)
    && (forall n :: 0 <= n < |s.invoked| ==> SpentPermit(s, s.invoked[n]))
    && (forall n, m :: 0 <= n < m < |s.invoked| ==> s.invoked[n] != s.invoked[m])
  }

  ghost predicate SpentPermit(s: State, k: CallKey) {
    exists i :: 0 <= i < |s.permits| && s.permits[i].key == k && s.permits[i].consumed
  }

  lemma AttemptedIsForever(d: Durable, d': Durable, k: CallKey, other: CallKey)
    requires TableStep(d, d', k) && RowOkAt(d', k) && Attempted(d, other)
    ensures Attempted(d', other)
  {}

  /** Permits keep their call and stay consumed. */
  ghost predicate PermitsKept(s: State, s': State) {
    && |s'.permits| == |s.permits|
    && forall i :: 0 <= i < |s.permits| ==> s'.permits[i].key == s.permits[i].key && (s.permits[i].consumed ==> s'.permits[i].consumed)
  }

  lemma OneAttemptWithoutTraffic(s: State, s': State, k: CallKey)
    requires OneAttempt(s) && TableStep(s.d, s'.d, k) && RowOkAt(s'.d, k)
    requires PermitsKept(s, s') && s'.invoked == s.invoked
    requires forall t :: t in s'.threads && s'.threads[t].Minting? ==> t in s.threads && s'.threads[t] == s.threads[t]
    ensures OneAttempt(s')
  {
    forall i | 0 <= i < |s'.permits| ensures Attempted(s'.d, s'.permits[i].key) {
      AttemptedIsForever(s.d, s'.d, k, s.permits[i].key);
    }
    forall t | t in s'.threads && s'.threads[t].Minting? ensures Attempted(s'.d, s'.threads[t].ticket.context.key) {
      AttemptedIsForever(s.d, s'.d, k, s.threads[t].ticket.context.key);
    }
    forall n | 0 <= n < |s'.invoked| ensures SpentPermit(s', s'.invoked[n]) {
      assert SpentPermit(s, s.invoked[n]);
      var i :| 0 <= i < |s.permits| && s.permits[i].key == s.invoked[n] && s.permits[i].consumed;
      assert s'.permits[i].key == s.invoked[n];
    }
  }

  /** A started attempt enters as the only holder of its call. */
  lemma NewMintingThread(s: State, s': State, thread: nat, m: Thread, k: CallKey)
    requires OneAttempt(s) && s' == s.(d := s'.d, threads := s.threads[thread := m]) && thread !in s.threads
    requires m.Minting? && m.ticket.context.key == k && Starts(s.d, s'.d, k)
    ensures OneAttempt(s')
  {
    forall i | 0 <= i < |s'.permits| ensures Attempted(s'.d, s'.permits[i].key) && s'.permits[i].key != k {
      assert Attempted(s.d, s.permits[i].key);
    }
    forall n | 0 <= n < |s'.invoked| ensures SpentPermit(s', s'.invoked[n]) {
      assert SpentPermit(s, s.invoked[n]);
    }
  }

  lemma StartKeepsOneAttempt(s: State, op: Op)
    requires OneAttempt(s) && op.Start? && RowOkAt(s.d, KeyOf(op))
    ensures OneAttempt(Apply(s, op))
  {
    hide OneAttempt;
    hide RowOk;
    hide TerminalFailure;
    StartEffect(s.d, op.admission, op.env);
    StepEffect(s, op);
    var t := StartTx(s.d, op.admission, op.env).1;
    if op.thread in s.threads || t.Err? {
      OneAttemptWithoutTraffic(s, Apply(s, op), KeyOf(op));
    } else {
      NewMintingThread(s, Apply(s, op), op.thread, Minting(op.process, t.value), KeyOf(op));
    }
  }

  lemma MintKeepsOneAttempt(s: State, op: Op)
    requires OneAttempt(s) && op.Mint?
    ensures OneAttempt(Apply(s, op))
  {
    var s' := Apply(s, op);
    if op.thread in s.threads && s.threads[op.thread].Minting? {
      forall n | 0 <= n < |s'.invoked| ensures SpentPermit(s', s'.invoked[n]) {
        assert SpentPermit(s, s.invoked[n]);
        var i :| 0 <= i < |s.permits| && s.permits[i].key == s.invoked[n] && s.permits[i].consumed;
        assert s'.permits[i] == s.permits[i];
      }
    }
  }

  lemma SendKeepsOneAttempt(s: State, op: Op)
    requires OneAttempt(s) && op.Send? && RowOkAt(s.d, KeyOf(op))
    ensures OneAttempt(Apply(s, op))
  {
    hide OneAttempt, RowOk;
    var s' := Apply(s, op);
    if op.thread in s.threads && s.threads[op.thread].Dispatching? {
      var p := s.threads[op.thread].permit;
      if p < |s.permits| && ConsumePermit(s.permits[p], op.clock).Ok? {
        SpendingKeepsOneAttempt(s, s', p);
      } else {
        OneAttemptWithoutTraffic(s, s', KeyOf(op));
      }
    }
  }

  lemma SpendingKeepsOneAttempt(s: State, s': State, p: nat)
    requires OneAttempt(s) && p < |s.permits| && !s.permits[p].consumed
    requires s'.d == s.d && s'.permits == s.permits[p := s.permits[p].(consumed := true)] && s'.invoked == s.invoked + [s.permits[p].key]
    requires forall t :: t in s'.threads ==> t in s.threads && s'.threads[t] == s.threads[t]
    ensures OneAttempt(s')
  {
    var key := s.permits[p].key;
    assert s'.permits[p].key == key && s'.permits[p].consumed;
    forall n | 0 <= n < |s.invoked| ensures SpentPermit(s', s.invoked[n]) && s.invoked[n] != key {
      assert SpentPermit(s, s.invoked[n]);
      var i :| 0 <= i < |s.permits| && s.permits[i].key == s.invoked[n] && s.permits[i].consumed;
      assert s'.permits[i] == s.permits[i];
    }
  }

  lemma StepKeepsOneAttempt(s: State, op: Op)
    requires RowsOk(s.d) && OneAttempt(s)
    ensures OneAttempt(Apply(s, op))
  {
    assert RowOkAt(s.d, KeyOf(op));
    if op.Start? {
      StartKeepsOneAttempt(s, op);
    } else if op.Mint? {
      MintKeepsOneAttempt(s, op);
    } else if op.Send? {
      SendKeepsOneAttempt(s, op);
    } else {
      StepEffect(s, op);
      OtherTraffic(s, op);
      OneAttemptWithoutTraffic(s, Apply(s, op), KeyOf(op));
    }
  }

  lemma OtherTraffic(s: State, op: Op)
    requires !op.Start? && !op.Mint? && !op.Send?
    ensures var s' := Apply(s, op);
            && PermitsKept(s, s') && s'.invoked == s.invoked
            && forall t :: t in s'.threads && s'.threads[t].Minting? ==> t in s.threads && s'.threads[t] == s.threads[t]
  {
    hide ClaimTx;
    hide CompleteTx;
    hide FailTx;
    hide CancelTx;
    hide RecoverTx;
    hide AdminRecoverTx;
  }

  lemma {:induction false} RunKeepsOneAttempt(ops: seq<Op>)
    ensures RowsOk(Reached(ops).d) && OneAttempt(Reached(ops))
    decreases |ops|
  {
    if ops != [] {
      RunKeepsOneAttempt(ops[..|ops| - 1]);
      StepKeepsRows(Reached(ops[..|ops| - 1]), ops[|ops| - 1]);
      StepKeepsOneAttempt(Reached(ops[..|ops| - 1]), ops[|ops| - 1]);
    }
  }

  /** At-most-once effect: over any run the provider is invoked at most once per call, and at most
      one permit is ever minted per call. No assumption about lease tokens or clocks is needed. */
  lemma AtMostOnceEffect(ops: seq<Op>)
    ensures var s := Reached(ops);
            && (forall n, m :: 0 <= n < m < |s.invoked| ==> s.invoked[n] != s.invoked[m])
            && (forall i, j :: 0 <= i < j < |s.permits| ==> s.permits[i].key != s.permits[j].key)
            && (forall n :: 0 <= n < |s.invoked| ==> Attempted(s.d, s.invoked[n]))
  {
    RunKeepsOneAttempt(ops);
    var s := Reached(ops);
    forall n | 0 <= n < |s.invoked| ensures Attempted(s.d, s.invoked[n]) {
      assert SpentPermit(s, s.invoked[n]);
    }
  }

  // ---- Rows live forever, terminal rows never change again

  ghost predicate Persists(d: Durable, d': Durable, k: CallKey)
    requires k in d.calls
  {
    && k in d'.calls
    && var c, c' := d.calls[k], d'.calls[k];
    && c'.id == c.id && c'.terms == c.terms && c'.attempts >= c.attempts
    && (c.status != Claimed ==> c' == c)
  }

  lemma StepPersists(d: Durable, d': Durable, touched: CallKey, k: CallKey)
    requires TableStep(d, d', touched) && k in d.calls
    ensures Persists(d, d', k)
  {}

  lemma {:induction false} RowsPersist(s: State, ops: seq<Op>, k: CallKey)
    requires RowsOk(s.d) && k in s.d.calls
    ensures RowsOk(Run(s, ops).d) && Persists(s.d, Run(s, ops).d, k)
    decreases |ops|
  {
    hide Apply;
    hide RowOk;
    if ops != [] {
      var before := Run(s, ops[..|ops| - 1]);
      var op := ops[|ops| - 1];
      RowsPersist(s, ops[..|ops| - 1], k);
      assert RowOkAt(before.d, KeyOf(op));
      StepEffect(before, op);
      StepKeepsRows(before, op);
      StepPersists(before.d, Apply(before, op).d, KeyOf(op), k);
    }
  }

  /** Once terminal, a call's status, charges, children, lease and flags never change again. */
  lemma TerminalRowsAreFrozen(before: seq<Op>, after: seq<Op>, k: CallKey)
    requires k in Reached(before).d.calls && Reached(before).d.calls[k].status != Claimed
    ensures k in Reached(before + after).d.calls && Reached(before + after).d.calls[k] == Reached(before).d.calls[k]
  {
    RunKeepsOneAttempt(before);
    RowsPersist(Reached(before), after, k);
    RunAppend(INITIAL, before, after);
  }

  // ---- Workflow budgets

  ghost predicate Flagged(d: Durable, w: WorkflowId) {
    exists k :: k in d.calls && k.workflow == w && d.calls[k].overrun
  }

  ghost predicate BudgetOk(d: Durable, w: WorkflowId) {
    w in d.workflows ==>
      && |CallsOf(d.calls, w)| <= d.workflows[w].terms.maxBatches
      && CandidateTotal(d.calls, w) <= d.workflows[w].terms.maxCandidates
      && (!Flagged(d, w) ==> Obligation(d.calls, w) <= ValidationCeiling(d.workflows[w]))
  }

  ghost predicate CallsHaveWorkflows(d: Durable) {
    forall k :: k in d.calls ==> k.workflow in d.workflows
  }

  lemma UntouchedWorkflow(d: Durable, d': Durable, k: CallKey, w: WorkflowId)
    requires TableStep(d, d', k) && (k.workflow != w || d'.calls == d.calls)
    ensures CallsOf(d'.calls, w) == CallsOf(d.calls, w)
    ensures Obligation(d'.calls, w) == Obligation(d.calls, w) && CandidateTotal(d'.calls, w) == CandidateTotal(d.calls, w)
    ensures Flagged(d, w) ==> Flagged(d', w)
  {
    assert CallsOf(d'.calls, w) == CallsOf(d.calls, w);
    SumOverSame(CallsOf(d.calls, w), OwedIn(d.calls), OwedIn(d'.calls));
    SumOverSame(CallsOf(d.calls, w), CandidatesIn(d.calls), CandidatesIn(d'.calls));
    if Flagged(d, w) {
      var c :| c in d.calls && c.workflow == w && d.calls[c].overrun;
      assert d'.calls[c].overrun;
    }
  }

  /** The sums of the touched workflow change only in the touched row. */
  lemma TouchedWorkflow(d: Durable, d': Durable, k: CallKey)
    requires k in d'.calls && d'.calls == d.calls[k := d'.calls[k]]
    ensures var w := k.workflow;
            && CallsOf(d'.calls, w) == CallsOf(d.calls, w) + {k}
            && |CallsOf(d'.calls, w)| == |CallsOf(d.calls, w)| + (if k in d.calls then 0 else 1)
            && Obligation(d'.calls, w) + (if k in d.calls then Owed(d.calls[k]) else 0) == Obligation(d.calls, w) + Owed(d'.calls[k])
            && CandidateTotal(d'.calls, w) + (if k in d.calls then |d.calls[k].terms.candidates| else 0)
               == CandidateTotal(d.calls, w) + |d'.calls[k].terms.candidates|
  {
    var w := k.workflow;
    var others := CallsOf(d'.calls, w) - {k};
    assert others == CallsOf(d.calls, w) - {k};
    assert CallsOf(d'.calls, w) == CallsOf(d.calls, w) + {k};
    SumOverRemove(CallsOf(d'.calls, w), OwedIn(d'.calls), k);
    SumOverRemove(CallsOf(d'.calls, w), CandidatesIn(d'.calls), k);
    SumOverSame(others, OwedIn(d.calls), OwedIn(d'.calls));
    SumOverSame(others, CandidatesIn(d.calls), CandidatesIn(d'.calls));
    if k in d.calls {
      SumOverRemove(CallsOf(d.calls, w), OwedIn(d.calls), k);
      SumOverRemove(CallsOf(d.calls, w), CandidatesIn(d.calls), k);
    } else {
      assert others == CallsOf(d.calls, w);
    }
  }

  lemma StepKeepsBudget(d: Durable, d': Durable, k: CallKey, w: WorkflowId)
    requires TableStep(d, d', k) && WorkflowStep(d, d') && RowOkAt(d, k) && CallsHaveWorkflows(d) && BudgetOk(d, w)
    ensures BudgetOk(d', w)
  {
    hide RowOk;
    if w !in d.workflows {
      EmptyWorkflow(d, d', k, w);
    } else if k.workflow != w || d'.calls == d.calls {
      UntouchedWorkflow(d, d', k, w);
    } else if k in d.calls {
      RewriteKeepsBudget(d, d', k);
    } else {
      InsertKeepsBudget(d, d', k);
    }
  }

  lemma FlagsPersist(d: Durable, d': Durable, k: CallKey)
    requires k in d'.calls && d'.calls == d.calls[k := d'.calls[k]]
    requires k in d.calls ==> !d.calls[k].overrun
    ensures Flagged(d, k.workflow) ==> Flagged(d', k.workflow)
    ensures d'.calls[k].overrun ==> Flagged(d', k.workflow)
  {}

  lemma InsertKeepsBudget(d: Durable, d': Durable, k: CallKey)
    requires Inserts(d, d', k) && WorkflowStep(d, d') && BudgetOk(d, k.workflow)
    ensures BudgetOk(d', k.workflow)
  {
    TouchedWorkflow(d, d', k);
    FlagsPersist(d, d', k);
  }

  lemma RewriteKeepsBudget(d: Durable, d': Durable, k: CallKey)
    requires TableStep(d, d', k) && d'.calls != d.calls && k in d.calls && RowOkAt(d, k)
    requires k.workflow in d.workflows && WorkflowStep(d, d') && BudgetOk(d, k.workflow)
    ensures BudgetOk(d', k.workflow)
  {
    hide RowOk;
    OwedAfterRewrite(d, d', k);
    OpenRowsAreUnflagged(d, d', k);
    TouchedWorkflow(d, d', k);
    FlagsPersist(d, d', k);
  }

  lemma OpenRowsAreUnflagged(d: Durable, d': Durable, k: CallKey)
    requires TableStep(d, d', k) && d'.calls != d.calls && RowOkAt(d, k)
    ensures k in d.calls ==> !d.calls[k].overrun
  {}

  lemma OwedAfterRewrite(d: Durable, d': Durable, k: CallKey)
    requires TableStep(d, d', k) && d'.calls != d.calls && k in d.calls && RowOkAt(d, k)
    ensures d'.calls[k].overrun || Owed(d'.calls[k]) <= Owed(d.calls[k])
    ensures d'.calls[k].terms == d.calls[k].terms && d'.calls == d.calls[k := d'.calls[k]] && k in d'.calls
    ensures !Inserts(d, d', k)
  {}

  lemma EmptyWorkflow(d: Durable, d': Durable, k: CallKey, w: WorkflowId)
    requires TableStep(d, d', k) && CallsHaveWorkflows(d) && w !in d.workflows && RowOkAt(d, k)
    ensures BudgetOk(d', w)
  {}

  lemma {:induction false} RunKeepsBudget(ops: seq<Op>, w: WorkflowId)
    ensures var d := Reached(ops).d; RowsOk(d) && CallsHaveWorkflows(d) && BudgetOk(d, w)
    decreases |ops|
  {
    if ops != [] {
      var s := Reached(ops[..|ops| - 1]);
      var op := ops[|ops| - 1];
      RunKeepsBudget(ops[..|ops| - 1], w);
      assert RowOkAt(s.d, KeyOf(op));
      StepEffect(s, op);
      StepKeepsRows(s, op);
      StepKeepsBudget(s.d, Apply(s, op).d, KeyOf(op), w);
    } else {
      assert CallsOf(INITIAL.d.calls, w) == {};
    }
  }

  /** Budget safety: in every reachable state a workflow holds at most its confirmed number of
      batches and candidates, and, unless one of its calls is flagged as an overrun, what it was
      charged plus what it has reserved stays within the smaller of the deployment ceiling and its
      confirmed ceiling. */
  lemma BudgetSafety(ops: seq<Op>, w: WorkflowId)
    requires w in Reached(ops).d.workflows
    ensures var d := Reached(ops).d;
            && |CallsOf(d.calls, w)| <= d.workflows[w].terms.maxBatches
            && CandidateTotal(d.calls, w) <= d.workflows[w].terms.maxCandidates
            && (!Flagged(d, w) ==> Obligation(d.calls, w) <= Min(MAX_VALIDATION_COST, d.workflows[w].terms.ceilings.validation))
  {
    RunKeepsBudget(ops, w);
  }

  /** A step that charges a call above its reservation flags that call and leaves the breaker open
      in the same transaction; and no step flags a call without leaving the breaker open. */
  lemma OverchargeOpensBreaker(ops: seq<Op>, op: Op, k: CallKey)
    requires var (d, d') := (Reached(ops).d, Apply(Reached(ops), op).d);
             k in d.calls && d.calls[k].status == Claimed && k in d'.calls && d'.calls[k].status != Claimed
    ensures var c := Apply(Reached(ops), op).d.calls[k];
            && c.charged.Some?
            && (c.charged.value.cost > c.terms.reserved.cost ==> c.overrun)
            && (c.overrun ==> Apply(Reached(ops), op).d.safety.Some? && Apply(Reached(ops), op).d.safety.value.open)
  {
    hide RowOk, Apply, Run, OneAttempt;
    RunKeepsOneAttempt(ops);
    assert RowOkAt(Reached(ops).d, KeyOf(op));
    StepEffect(Reached(ops), op);
  }

  // ---- Conservation between a call and its children

  ghost predicate ConservesExcept(s: State) {
    forall k :: k in s.d.calls ==>
      (Conserves(s.d.calls[k]) <==> !(k in s.operatorRecovered && s.d.calls[k].attempts == 1))
  }

  ghost predicate OperatorRecoveredAreTerminal(s: State) {
    forall k :: k in s.operatorRecovered ==> k in s.d.calls && s.d.calls[k].status != Claimed
  }

  lemma OperatorHistory(s: State, op: Op)
    ensures !op.OperatorRecover? ==> Apply(s, op).operatorRecovered == s.operatorRecovered
    ensures op.OperatorRecover? ==>
              var (d', n) := AdminRecoverTx(s.d, op.key, op.now, op.force);
              Apply(s, op).d == d' && Apply(s, op).operatorRecovered == if n == 0 then s.operatorRecovered else s.operatorRecovered + {op.key}
  {
    hide ClaimTx;
    hide CompleteTx;
    hide FailTx;
    hide CancelTx;
    hide RecoverTx;
    hide AdminRecoverTx;
  }

  lemma StepKeepsConservation(s: State, op: Op)
    requires RowsOk(s.d) && ConservesExcept(s) && OperatorRecoveredAreTerminal(s)
    ensures ConservesExcept(Apply(s, op)) && OperatorRecoveredAreTerminal(Apply(s, op))
  {
    hide Apply;
    hide RowOk;
    hide Conserves;
    var s' := Apply(s, op);
    var k := KeyOf(op);
    assert RowOkAt(s.d, k);
    StepEffect(s, op);
    OperatorHistory(s, op);
    if op.OperatorRecover? {
      OperatorStepConserves(s, s', op);
    } else if k in s.d.calls && k in s'.d.calls {
      SameChargesConserveAlike(s.d.calls[k], s'.d.calls[k]);
    }
  }

  lemma OperatorStepConserves(s: State, s': State, op: Op)
    requires op.OperatorRecover? && RowOkAt(s.d, op.key) && ConservesExcept(s) && OperatorRecoveredAreTerminal(s)
    requires s'.d == AdminRecoverTx(s.d, op.key, op.now, op.force).0
    requires s'.operatorRecovered == if AdminRecoverTx(s.d, op.key, op.now, op.force).1 == 0 then s.operatorRecovered else s.operatorRecovered + {op.key}
    ensures ConservesExcept(s') && OperatorRecoveredAreTerminal(s')
  {
    hide Conserves;
    AdminRecoverEffect(s.d, op.key, op.now, op.force);
  }

  lemma SameChargesConserveAlike(c: Call, c': Call)
    ensures c'.children == c.children && c'.charged == c.charged ==> (Conserves(c') <==> Conserves(c))
  {}

  lemma {:induction false} RunConserves(ops: seq<Op>)
    ensures RowsOk(Reached(ops).d) && ConservesExcept(Reached(ops)) && OperatorRecoveredAreTerminal(Reached(ops))
    decreases |ops|
  {
    if ops != [] {
      RunConserves(ops[..|ops| - 1]);
      StepKeepsRows(Reached(ops[..|ops| - 1]), ops[|ops| - 1]);
      StepKeepsConservation(Reached(ops[..|ops| - 1]), ops[|ops| - 1]);
    }
  }

  /** In every reachable state the tokens and costs of a call's children add up to the call's
      charge - except for exactly those calls an operator recovered after their attempt had
      started, whose charge is kept while their children are zeroed. */
  lemma ChildrenConserveTheCharge(ops: seq<Op>, k: CallKey)
    requires k in Reached(ops).d.calls
    ensures Conserves(Reached(ops).d.calls[k]) <==> !(k in Reached(ops).operatorRecovered && Reached(ops).d.calls[k].attempts == 1)
  {
    RunConserves(ops);
  }
}
