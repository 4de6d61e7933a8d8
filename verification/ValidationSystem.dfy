/** Runs of the validation protocol: any number of processes and threads over one durable call
    table, with crashes that lose a process's volatile state, and operators at work.

    A transaction is one step. Everything between two transactions of one call - minting the permit
    after the start has committed, consuming it after the dispatch check has passed - is a step of
    its own, so any other step may come in between. */
module ValidationSystem {
  import opened Outcomes
  import opened Sums
  import opened CostAllocation
  import opened AutoReviewPolicy
  import opened ValidationProtocol
  import opened CallRows

  /** Where a thread stands between two transactions of one call. */
  datatype Thread =
    | Minting(process: nat, ticket: Ticket)
    | Dispatching(process: nat, attempt: string, permit: nat, context: Context)

  datatype State = State(
    d: Durable,
    processes: map<nat, Volatile>,
    threads: map<nat, Thread>,
    permits: seq<Permit>,            // every permit ever minted, by identity
    invoked: seq<CallKey>,           // history: calls the provider was invoked for
    operatorRecovered: set<CallKey>) // history: calls an operator settled

  datatype Op =
    | Claim(request: Request, env: Env)
    | Start(process: nat, thread: nat, admission: Admission, env: Env)
    | Mint(thread: nat, clock: int)
    | CheckDispatch(process: nat, thread: nat, attempt: string, permit: nat, invocation: Invocation, env: Env)
    | Send(thread: nat, clock: int)
    | Complete(process: nat, context: Context, completion: Completion, env: Env)
    | Fail(process: nat, context: Context, failure: Failure, env: Env)
    | Cancel(context: Context, env: Env)
    | Recover(process: nat, context: Context, env: Env)
    | OperatorRecover(key: CallKey, now: int, force: bool)
    | AuthorizeInitial(policy: nat, env: Env)
    | ClearBreaker(expectedVersion: nat, policy: nat, env: Env)
    | Launch(workflow: WorkflowId, row: Workflow)
    | CancelThread(workflow: WorkflowId)
    | Crash(process: nat)

  const INITIAL := State(Durable(map[], map[], None, [], 0), map[], map[], [], [], {})

  function VolatileOf(s: State, process: nat): Volatile {
    if process in s.processes then s.processes[process] else NO_VOLATILE
  }

  function Invalidate(p: Permit): Permit {
    p.(invalidated := true)
  }

  /** Recovery voids the grants this process still holds for the recovered context. */
  function VoidGrants(v: Volatile, ctx: Context): Volatile {
    v.(active := map a | a in v.active && v.active[a].context != ctx :: v.active[a])
  }

  function VoidPermits(permits: seq<Permit>, v: Volatile, ctx: Context): seq<Permit> {
    seq(|permits|, i requires 0 <= i < |permits| =>
      if exists a :: a in v.active && v.active[a] == Grant(i, ctx) then Invalidate(permits[i]) else permits[i])
  }

  function LaunchRow(d: Durable, w: WorkflowId, row: Workflow): Durable {
    if w in d.workflows then d else d.(workflows := d.workflows[w := row])
  }

  function CancelRow(d: Durable, w: WorkflowId): Durable {
    if w !in d.workflows then d else d.(workflows := d.workflows[w := d.workflows[w].(cancelled := true)])
  }

  function MintPermit(s: State, thread: nat, clock: int): (r: State)
    requires thread in s.threads && s.threads[thread].Minting?
    ensures r.d == s.d && r.operatorRecovered == s.operatorRecovered
  {
    var Minting(process, t) := s.threads[thread];
    var v := VolatileOf(s, process);
    var v' := v.(active := v.active[t.attempt := Grant(|s.permits|, t.context)], guards := v.guards[t.context.id := t.guards]);
    s.(permits := s.permits + [Permit(t.attempt, clock + t.sendWindow, false, false, t.context.key)],
       processes := s.processes[process := v'],
       threads := s.threads - {thread})
  }

  function CheckThenDispatch(s: State, op: Op): (r: State)
    requires op.CheckDispatch?
    ensures r.d == s.d && r.operatorRecovered == s.operatorRecovered
  {
    var v := VolatileOf(s, op.process);
    if op.thread in s.threads || op.attempt !in v.active || v.active[op.attempt].permit != op.permit then s
    else
      var g := v.active[op.attempt];
      match DispatchCheck(s.d, v, g, op.invocation, op.env)
      case Err(_) => s
      case Ok(true) => s.(threads := s.threads[op.thread := Dispatching(op.process, op.attempt, op.permit, g.context)])
      case Ok(false) =>
        s.(processes := s.processes[op.process := v.(active := v.active - {op.attempt})],
           permits := if op.permit < |s.permits| then s.permits[op.permit := Invalidate(s.permits[op.permit])] else s.permits)
  }

  function ConsumeAndSend(s: State, thread: nat, clock: int): (r: State)
    requires thread in s.threads && s.threads[thread].Dispatching?
    ensures r.d == s.d && r.operatorRecovered == s.operatorRecovered
  {
    var Dispatching(process, attempt, permit, ctx) := s.threads[thread];
    var v := VolatileOf(s, process);
    var v' := v.(active := v.active - {attempt});
    var s' := s.(threads := s.threads - {thread}, processes := s.processes[process := v']);
    if permit >= |s.permits| then s'
    else match ConsumePermit(s.permits[permit], clock)
      case Err(_) => s'
      case Ok(p) =>
        s'.(permits := s.permits[permit := p],
            processes := s.processes[process := v'.(dispatched := v'.dispatched + {ctx.id})],
            invoked := s.invoked + [p.key])
  }

  ghost function Apply(s: State, op: Op): State {
    match op
    case Claim(r, env) => s.(d := ClaimTx(s.d, r, env).0)
    case Start(process, thread, admission, env) =>
      if thread in s.threads then s
      else
        var (d', t) := StartTx(s.d, admission, env);
        s.(d := d', threads := if t.Ok? then s.threads[thread := Minting(process, t.value)] else s.threads)
    case Mint(thread, clock) => if thread in s.threads && s.threads[thread].Minting? then MintPermit(s, thread, clock) else s
    case CheckDispatch(_, _, _, _, _, _) => CheckThenDispatch(s, op)
    case Send(thread, clock) => if thread in s.threads && s.threads[thread].Dispatching? then ConsumeAndSend(s, thread, clock) else s
    case Complete(process, ctx, done, env) =>
      var (d', v', _) := CompleteTx(s.d, VolatileOf(s, process), ctx, done, env);
      s.(d := d', processes := s.processes[process := v'])
    case Fail(process, ctx, f, env) =>
      var (d', v', _) := FailTx(s.d, VolatileOf(s, process), ctx, f, env);
      s.(d := d', processes := s.processes[process := v'])
    case Cancel(ctx, env) => s.(d := CancelTx(s.d, ctx, env).0)
    case Recover(process, ctx, env) =>
      var (d', r) := RecoverTx(s.d, ctx, env);
      if r.Err? then s
      else
        var v := VolatileOf(s, process);
        s.(d := d', processes := s.processes[process := Forget(VoidGrants(v, ctx), ctx.id)], permits := VoidPermits(s.permits, v, ctx))
    case OperatorRecover(key, now, force) =>
      var (d', n) := AdminRecoverTx(s.d, key, now, force);
      s.(d := d', operatorRecovered := if n == 0 then s.operatorRecovered else s.operatorRecovered + {key})
    case AuthorizeInitial(policy, env) => s.(d := AuthorizeInitialTx(s.d, policy, env).0)
    case ClearBreaker(version, policy, env) => s.(d := ClearBreakerTx(s.d, version, policy, env).0)
    case Launch(w, row) => s.(d := LaunchRow(s.d, w, row))
    case CancelThread(w) => s.(d := CancelRow(s.d, w))
    case Crash(process) =>
      s.(processes := s.processes - {process},
         threads := map t | t in s.threads && s.threads[t].process != process :: s.threads[t])
  }

  ghost function Run(s: State, ops: seq<Op>): State
    decreases |ops|
  {
    if ops == [] then s else Apply(Run(s, ops[..|ops| - 1]), ops[|ops| - 1])
  }

  // ---- One step, seen from the call table

  /** Every step leaves the table alone or changes one row in one of the five ways. */
  ghost predicate TableStep(d: Durable, d': Durable, k: CallKey) {
    || d'.calls == d.calls
    || (d'.workflows == d.workflows && (Inserts(d, d', k) || Releases(d, d', k) || Starts(d, d', k) || Settles(d, d', k)))
  }

  ghost predicate WorkflowStep(d: Durable, d': Durable) {
    forall w :: w in d.workflows ==> w in d'.workflows && d'.workflows[w].terms == d.workflows[w].terms && d'.workflows[w].budgetLimit == d.workflows[w].budgetLimit
  }

  function KeyOf(op: Op): CallKey {
    match op
    case Claim(r, _) => r.key
    case Start(_, _, a, _) => a.context.key
    case Complete(_, ctx, _, _) => ctx.key
    case Fail(_, ctx, _, _) => ctx.key
    case Cancel(ctx, _) => ctx.key
    case Recover(_, ctx, _) => ctx.key
    case OperatorRecover(key, _, _) => key
    case _ => CallKey("", "")
  }

  /** Children and charge of the row stay as they were, or add up. */
  ghost predicate ChargeKept(d: Durable, d': Durable, k: CallKey) {
    k in d'.calls ==>
      || Conserves(d'.calls[k])
      || (k in d.calls && d'.calls[k].children == d.calls[k].children && d'.calls[k].charged == d.calls[k].charged)
  }

  ghost predicate StepOk(d: Durable, d': Durable, k: CallKey) {
    TableStep(d, d', k) && WorkflowStep(d, d') && RowOkAt(d', k)
  }

  lemma OpeningStep(s: State, op: Op)
    requires (op.Claim? || op.Start?) && RowOkAt(s.d, KeyOf(op))
    ensures StepOk(s.d, Apply(s, op).d, KeyOf(op))
    ensures ChargeKept(s.d, Apply(s, op).d, KeyOf(op))
  {
    hide ClaimTx;
    match op
    case Claim(r, env) => ClaimEffect(s.d, r, env);
    case Start(_, thread, a, env) =>
      if thread !in s.threads {
        StartEffect(s.d, a, env);
      }
  }

  lemma ReportingStep(s: State, op: Op)
    requires (op.Complete? || op.Fail?) && RowOkAt(s.d, KeyOf(op))
    ensures StepOk(s.d, Apply(s, op).d, KeyOf(op))
    ensures ChargeKept(s.d, Apply(s, op).d, KeyOf(op))
  {
    hide CompleteTx;
    hide FailTx;
    hide RowOk;
    match op
    case Complete(p, ctx, done, env) => CompleteEffect(s.d, VolatileOf(s, p), ctx, done, env);
    case Fail(p, ctx, f, env) => FailEffect(s.d, VolatileOf(s, p), ctx, f, env);
  }

  lemma ClosingStep(s: State, op: Op)
    requires (op.Cancel? || op.Recover? || op.OperatorRecover?) && RowOkAt(s.d, KeyOf(op))
    ensures StepOk(s.d, Apply(s, op).d, KeyOf(op))
    ensures !op.OperatorRecover? ==> ChargeKept(s.d, Apply(s, op).d, KeyOf(op))
  {
    hide CancelTx;
    hide RecoverTx;
    hide AdminRecoverTx;
    hide RowOk;
    match op
    case Cancel(ctx, env) => CancelEffect(s.d, ctx, env);
    case Recover(_, ctx, env) => RecoverEffect(s.d, ctx, env);
    case OperatorRecover(key, now, force) => AdminRecoverEffect(s.d, key, now, force);
  }

  lemma QuietStep(s: State, op: Op)
    requires !(op.Claim? || op.Start? || op.Complete? || op.Fail? || op.Cancel? || op.Recover? || op.OperatorRecover?)
    requires RowOkAt(s.d, KeyOf(op))
    ensures StepOk(s.d, Apply(s, op).d, KeyOf(op))
    ensures ChargeKept(s.d, Apply(s, op).d, KeyOf(op))
  {
    hide ClaimTx;
    hide StartTx;
    hide CompleteTx;
    hide FailTx;
    hide CancelTx;
    hide RecoverTx;
    hide AdminRecoverTx;
    hide MintPermit;
    hide CheckThenDispatch;
    hide ConsumeAndSend;
  }

  lemma StepEffect(s: State, op: Op)
    requires RowOkAt(s.d, KeyOf(op))
    ensures StepOk(s.d, Apply(s, op).d, KeyOf(op))
    ensures !op.OperatorRecover? ==> ChargeKept(s.d, Apply(s, op).d, KeyOf(op))
  {
    hide Apply;
    hide StepOk;
    hide ChargeKept;
    if op.Claim? || op.Start? {
      OpeningStep(s, op);
    } else if op.Complete? || op.Fail? {
      ReportingStep(s, op);
    } else if op.Cancel? || op.Recover? || op.OperatorRecover? {
      ClosingStep(s, op);
    } else {
      QuietStep(s, op);
    }
  }

  lemma StepKeepsRows(s: State, op: Op)
    requires RowsOk(s.d)
    ensures RowsOk(Apply(s, op).d)
  {
    hide Apply;
    hide RowOk;
    StepEffect(s, op);
    var d' := Apply(s, op).d;
    forall k | k in d'.calls ensures RowOkAt(d', k) {
      if k != KeyOf(op) || d'.calls == s.d.calls {
        assert RowOkAt(s.d, k);
      }
    }
  }

  lemma {:induction false} RunKeepsRows(s: State, ops: seq<Op>)
    requires RowsOk(s.d)
    ensures RowsOk(Run(s, ops).d)
    decreases |ops|
  {
    if ops != [] {
      RunKeepsRows(s, ops[..|ops| - 1]);
      StepKeepsRows(Run(s, ops[..|ops| - 1]), ops[|ops| - 1]);
    }
  }

  /** A run continued is a run. */
  lemma {:induction false} RunAppend(s: State, a: seq<Op>, b: seq<Op>)
    ensures Run(s, a + b) == Run(Run(s, a), b)
    decreases |b|
  {
    if b == [] {
      assert a + b == a;
    } else {
      RunAppend(s, a, b[..|b| - 1]);
      assert (a + b)[..|a + b| - 1] == a + b[..|b| - 1];
    }
  }
}
