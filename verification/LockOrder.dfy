/** The fixed lock order: what the guard enforces within one transaction, the lock sequences the
    transactions take, and why no set of them can deadlock. */
module LockOrder {
  import opened Outcomes

  // Positions in the global lock order.
  const GENERATION := 0
  const RUNTIME_KEY := 1
  const RAG_CORPUS := 2
  const PROVIDER_SAFETY := 3
  const PROJECTION := 4
  const ROLLOUT := 5
  const SOURCES := 6
  const THREADS := 7
  const CALLS := 8

  /** A lock: a row (or advisory lock) at a position of the global order - `table` separates the
      tables that share a position, `id` the rows of a table - or a child row of a call. */
  datatype Lock = Row(rank: nat, table: nat, id: nat) | ChildRow(call: nat, index: nat)
  datatype Mode = Shared | Exclusive
  datatype Want = Want(lock: Lock, mode: Mode)

  predicate Before(a: Lock, b: Lock)
    requires a.Row? && b.Row?
  {
    a.rank < b.rank || (a.rank == b.rank && (a.table < b.table || (a.table == b.table && a.id < b.id)))
  }

  function CallRow(id: nat): Lock { Row(CALLS, 0, id) }

  /** Rows are taken in increasing order; child rows, in whatever order, only under their call. */
  predicate Disciplined(plan: seq<Want>) {
    forall i :: 0 <= i < |plan| ==>
      match plan[i].lock
      case Row(_, _, _) => forall j :: 0 <= j < i && plan[j].lock.Row? ==> Before(plan[j].lock, plan[i].lock)
      case ChildRow(call, _) => Want(CallRow(call), Exclusive) in plan[..i]
  }

  // ---- What the guard enforces

  datatype GuardStep = GenerationShared | GenerationExclusive | RuntimeShare | RuntimeUpdate
    | RagCorpusShare | RagCorpusUpdate | Projection

  /** One database session: the guard's recorded order, and the locks the transaction has taken.
      The record is reset at the ends of the barrier; the locks are held to the commit. */
  class KeyedSession {
    var order: seq<GuardStep>
    var taken: seq<Want>

    constructor ()
      ensures order == [] && taken == []
    {
      order, taken := [], [];
    }

    method RecordNext(step: GuardStep, allowedPrevious: set<GuardStep>, lock: Want) returns (ok: bool)
      modifies this
      ensures ok <==> old(order) != [] && old(order)[|old(order)| - 1] in allowedPrevious
      ensures order == (if ok then old(order) + [step] else old(order))
      ensures taken == (if ok then old(taken) + [lock] else old(taken))
    {
      if order == [] || order[|order| - 1] !in allowedPrevious {
        return false;
      }
      order := order + [step];
      taken := taken + [lock];
      return true;
    }

    method Perform(call: GuardCall) returns (ok: bool)
      modifies this
      ensures (order, taken, ok) == Guarded(old(order), old(taken), call)
    {
      match call {
        case EnterBarrier(exclusive) =>
          order := [if exclusive then GenerationExclusive else GenerationShared];
          taken := taken + [Want(Row(GENERATION, 0, 0), if exclusive then Exclusive else Shared)];
          ok := true;
        case LeaveBarrier =>
          order := [];
          ok := true;
        case LockRuntime(update) =>
          ok := RecordNext(if update then RuntimeUpdate else RuntimeShare,
                           {if update then GenerationExclusive else GenerationShared},
                           Want(Row(RUNTIME_KEY, 0, 0), if update then Exclusive else Shared));
        case LockRagCorpus(update) =>
          ok := RecordNext(if update then RagCorpusUpdate else RagCorpusShare, {RuntimeShare, RuntimeUpdate},
                           Want(Row(RAG_CORPUS, 0, 0), if update then Exclusive else Shared));
        case AcquireProjection =>
          ok := RecordNext(Projection, {RuntimeShare, RuntimeUpdate, RagCorpusShare, RagCorpusUpdate},
                           Want(Row(PROJECTION, 0, 0), Exclusive));
      }
    }
  }

  datatype GuardCall = EnterBarrier(exclusive: bool) | LeaveBarrier | LockRuntime(update: bool)
    | LockRagCorpus(update: bool) | AcquireProjection

  function Append(order: seq<GuardStep>, taken: seq<Want>, step: GuardStep, previous: set<GuardStep>, lock: Want)
    : (seq<GuardStep>, seq<Want>, bool)
  {
    if order != [] && order[|order| - 1] in previous then (order + [step], taken + [lock], true) else (order, taken, false)
  }

  function Guarded(order: seq<GuardStep>, taken: seq<Want>, call: GuardCall): (seq<GuardStep>, seq<Want>, bool) {
    match call
    case EnterBarrier(exclusive) =>
      ([if exclusive then GenerationExclusive else GenerationShared],
       taken + [Want(Row(GENERATION, 0, 0), if exclusive then Exclusive else Shared)], true)
    case LeaveBarrier => ([], taken, true)
    case LockRuntime(update) =>
      Append(order, taken, if update then RuntimeUpdate else RuntimeShare,
             if update then {GenerationExclusive} else {GenerationShared},
             Want(Row(RUNTIME_KEY, 0, 0), if update then Exclusive else Shared))
    case LockRagCorpus(update) =>
      Append(order, taken, if update then RagCorpusUpdate else RagCorpusShare, {RuntimeShare, RuntimeUpdate},
             Want(Row(RAG_CORPUS, 0, 0), if update then Exclusive else Shared))
    case AcquireProjection =>
      Append(order, taken, Projection, {RuntimeShare, RuntimeUpdate, RagCorpusShare, RagCorpusUpdate},
             Want(Row(PROJECTION, 0, 0), Exclusive))
  }

  function GuardRun(calls: seq<GuardCall>): (seq<GuardStep>, seq<Want>) {
    if calls == [] then ([], [])
    else
      var (order, taken) := GuardRun(calls[..|calls| - 1]);
      var (order', taken', _) := Guarded(order, taken, calls[|calls| - 1]);
      (order', taken')
  }

  function Entries(calls: seq<GuardCall>): nat {
    if calls == [] then 0 else Entries(calls[..|calls| - 1]) + if calls[|calls| - 1].EnterBarrier? then 1 else 0
  }

  function RankOf(step: GuardStep): nat {
    match step
    case GenerationShared => GENERATION
    case GenerationExclusive => GENERATION
    case RuntimeShare => RUNTIME_KEY
    case RuntimeUpdate => RUNTIME_KEY
    case RagCorpusShare => RAG_CORPUS
    case RagCorpusUpdate => RAG_CORPUS
    case Projection => PROJECTION
  }

  /** All locks so far are advisory or singleton rows, none above the last recorded step. */
  predicate GuardInv(order: seq<GuardStep>, taken: seq<Want>) {
    && (forall i :: 0 <= i < |taken| ==> taken[i].lock.Row? && taken[i].lock == Row(taken[i].lock.rank, 0, 0))
    && (order != [] ==> taken != [] && taken[|taken| - 1].lock.rank == RankOf(order[|order| - 1]))
    && Disciplined(taken)
  }

  lemma {:induction false} OneEntryIsDisciplined(calls: seq<GuardCall>)
    requires Entries(calls) <= 1
    ensures var (order, taken) := GuardRun(calls);
            GuardInv(order, taken) && (Entries(calls) == 0 ==> order == [] && taken == [])
    decreases |calls|
  {
    if calls != [] {
      var shorter := calls[..|calls| - 1];
      OneEntryIsDisciplined(shorter);
      var (order, taken) := GuardRun(shorter);
      var (order', taken', _) := Guarded(order, taken, calls[|calls| - 1]);
      if taken' != taken {
        DisciplinedAppend(taken, taken'[|taken|]);
        assert taken' == taken + [taken'[|taken|]];
      }
    }
  }

  lemma DisciplinedAppend(taken: seq<Want>, w: Want)
    requires Disciplined(taken) && w.lock.Row?
    requires forall i :: 0 <= i < |taken| ==> taken[i].lock.Row?
    requires taken == [] || Before(taken[|taken| - 1].lock, w.lock)
    ensures Disciplined(taken + [w])
  {}

  predicate TookGeneration(taken: seq<Want>) {
    exists i :: 0 <= i < |taken| && taken[i].lock == Row(GENERATION, 0, 0)
  }

  lemma {:induction false} SecondEntryBreaksOrder(calls: seq<GuardCall>)
    ensures Entries(calls) >= 1 ==> TookGeneration(GuardRun(calls).1)
    ensures Entries(calls) >= 2 ==> !Disciplined(GuardRun(calls).1)
    decreases |calls|
  {
    if calls != [] {
      var shorter := calls[..|calls| - 1];
      SecondEntryBreaksOrder(shorter);
      var taken, taken' := GuardRun(shorter).1, GuardRun(calls).1;
      assert taken <= taken';
      PrefixIsDisciplined(taken, taken');
      if TookGeneration(taken) {
        var i :| 0 <= i < |taken| && taken[i].lock == Row(GENERATION, 0, 0);
        assert taken'[i].lock == Row(GENERATION, 0, 0);
        if calls[|calls| - 1].EnterBarrier? {
          assert taken'[|taken|].lock == Row(GENERATION, 0, 0) && !Before(taken'[i].lock, taken'[|taken|].lock);
        }
      } else if calls[|calls| - 1].EnterBarrier? {
        assert taken'[|taken|].lock == Row(GENERATION, 0, 0);
      }
    }
  }

  lemma PrefixIsDisciplined(taken: seq<Want>, longer: seq<Want>)
    requires taken <= longer
    ensures Disciplined(longer) ==> Disciplined(taken)
  {}

  /** The guard forgets its record when the barrier is entered again, so it keeps a transaction's
      locks in order exactly when the transaction enters the barrier at most once. */
  lemma GuardKeepsOrderIff(calls: seq<GuardCall>)
    ensures Disciplined(GuardRun(calls).1) <==> Entries(calls) <= 1
  {
    if Entries(calls) <= 1 {
      OneEntryIsDisciplined(calls);
    } else {
      SecondEntryBreaksOrder(calls);
    }
  }

  // ---- The lock sequences of the transactions

  predicate Increasing(ids: seq<nat>) {
    forall i, j :: 0 <= i < j < |ids| ==> ids[i] < ids[j]
  }

  function Rows(rank: nat, table: nat, ids: seq<nat>, mode: Mode): seq<Want> {
    seq(|ids|, i requires 0 <= i < |ids| => Want(Row(rank, table, ids[i]), mode))
  }

  function ChildRows(call: nat, order: seq<nat>): seq<Want> {
    seq(|order|, i requires 0 <= i < |order| => Want(ChildRow(call, order[i]), Exclusive))
  }

  /** Generation barrier and runtime key, in front of every guarded transaction. */
  const BARRIER := [Want(Row(GENERATION, 0, 0), Shared), Want(Row(RUNTIME_KEY, 0, 0), Shared)]

  /** What each store transaction takes before it reaches the calls: the safety row, the projection
      lock, the rollout row if there is one, the sources by id, the thread, its request. */
  function StorePrefix(safety: nat, rollout: Option<nat>, sources: seq<nat>, workflow: nat): seq<Want> {
    BARRIER
    + [Want(Row(PROVIDER_SAFETY, 0, safety), Exclusive), Want(Row(PROJECTION, 0, 0), Exclusive)]
    + (if rollout.Some? then [Want(Row(ROLLOUT, 0, rollout.value), Exclusive)] else [])
    + Rows(SOURCES, 0, sources, Shared)
    + [Want(Row(THREADS, 0, workflow), Exclusive), Want(Row(THREADS, 1, workflow), Exclusive)]
  }

  datatype Transaction =
    | ClaimExisting(safety: nat, rollout: Option<nat>, sources: seq<nat>, workflow: nat, call: nat)
    | ClaimNew(safety: nat, rollout: Option<nat>, sources: seq<nat>, workflow: nat, siblings: seq<nat>)
    | CheckDispatch(safety: nat, rollout: Option<nat>, sources: seq<nat>, workflow: nat)
    | CallUpdate(safety: nat, rollout: Option<nat>, sources: seq<nat>, workflow: nat, call: nat, children: seq<nat>)
    | ProviderAdmin(safety: nat)
    | RolloutAdmin(rolloutRow: nat)
    | OperatorRecovery(call: nat, children: seq<nat>)

  /** Sources and sibling calls are selected in id order; children of a call in any order. */
  predicate WellSelected(t: Transaction) {
    match t
    case ClaimExisting(_, _, sources, _, _) => Increasing(sources)
    case ClaimNew(_, _, sources, _, siblings) => Increasing(sources) && Increasing(siblings)
    case CheckDispatch(_, _, sources, _) => Increasing(sources)
    case CallUpdate(_, _, sources, _, _, _) => Increasing(sources)
    case _ => true
  }

  function PlanOf(t: Transaction): seq<Want> {
    match t
    case ClaimExisting(safety, rollout, sources, w, call) => StorePrefix(safety, rollout, sources, w) + [Want(CallRow(call), Exclusive)]
    case ClaimNew(safety, rollout, sources, w, siblings) => StorePrefix(safety, rollout, sources, w) + Rows(CALLS, 0, siblings, Exclusive)
    case CheckDispatch(safety, rollout, sources, w) => StorePrefix(safety, rollout, sources, w)
    case CallUpdate(safety, rollout, sources, w, call, children) =>
      StorePrefix(safety, rollout, sources, w) + [Want(CallRow(call), Exclusive)] + ChildRows(call, children)
    case ProviderAdmin(safety) => BARRIER + [Want(Row(PROVIDER_SAFETY, 0, safety), Exclusive)]
    case RolloutAdmin(rolloutRow) => BARRIER + [Want(Row(ROLLOUT, 0, rolloutRow), Exclusive)]
    case OperatorRecovery(call, children) => [Want(CallRow(call), Exclusive)] + ChildRows(call, children)
  }

  /** Rows only, increasing, all below a bound. */
  predicate RisesBelow(plan: seq<Want>, bound: Lock)
    requires bound.Row?
  {
    && (forall i :: 0 <= i < |plan| ==> plan[i].lock.Row? && Before(plan[i].lock, bound))
    && (forall i, j :: 0 <= i < j < |plan| ==> Before(plan[i].lock, plan[j].lock))
  }

  lemma RisesAppend(plan: seq<Want>, low: Lock, more: seq<Want>, high: Lock)
    requires low.Row? && high.Row? && RisesBelow(plan, low) && RisesBelow(more, high)
    requires low == high || Before(low, high)
    requires forall i :: 0 <= i < |more| ==> more[i].lock == low || Before(low, more[i].lock)
    ensures RisesBelow(plan + more, high)
  {}

  lemma PrefixRises(safety: nat, rollout: Option<nat>, sources: seq<nat>, workflow: nat)
    requires Increasing(sources)
    ensures RisesBelow(StorePrefix(safety, rollout, sources, workflow), Row(CALLS, 0, 0))
  {
    var head := BARRIER + [Want(Row(PROVIDER_SAFETY, 0, safety), Exclusive), Want(Row(PROJECTION, 0, 0), Exclusive)];
    var rolloutRow := if rollout.Some? then [Want(Row(ROLLOUT, 0, rollout.value), Exclusive)] else [];
    RisesAppend(head, Row(ROLLOUT, 0, 0), rolloutRow, Row(SOURCES, 0, 0));
    RisesAppend(head + rolloutRow, Row(SOURCES, 0, 0), Rows(SOURCES, 0, sources, Shared), Row(THREADS, 0, 0));
    RisesAppend(head + rolloutRow + Rows(SOURCES, 0, sources, Shared), Row(THREADS, 0, 0),
                [Want(Row(THREADS, 0, workflow), Exclusive), Want(Row(THREADS, 1, workflow), Exclusive)], Row(CALLS, 0, 0));
  }

  lemma RisingIsDisciplined(plan: seq<Want>, bound: Lock, call: nat, children: seq<nat>)
    requires bound.Row? && RisesBelow(plan, bound)
    requires children != [] ==> Want(CallRow(call), Exclusive) in plan
    ensures Disciplined(plan + ChildRows(call, children))
  {
    var all := plan + ChildRows(call, children);
    forall i | |plan| <= i < |all| ensures Want(CallRow(call), Exclusive) in all[..i] {
      assert plan == all[..i][..|plan|];
    }
  }

  /** Every store transaction, and every operator transaction, takes its locks by the discipline. */
  lemma TransactionsAreDisciplined(t: Transaction)
    requires WellSelected(t)
    ensures Disciplined(PlanOf(t))
  {
    var top := Row(CALLS, 1, 0);
    match t
    case ClaimExisting(safety, rollout, sources, w, call) =>
      PrefixRises(safety, rollout, sources, w);
      RisesAppend(StorePrefix(safety, rollout, sources, w), Row(CALLS, 0, 0), [Want(CallRow(call), Exclusive)], top);
      RisingIsDisciplined(PlanOf(t), top, 0, []);
      assert PlanOf(t) + ChildRows(0, []) == PlanOf(t);
    case ClaimNew(safety, rollout, sources, w, siblings) =>
      PrefixRises(safety, rollout, sources, w);
      RisesAppend(StorePrefix(safety, rollout, sources, w), Row(CALLS, 0, 0), Rows(CALLS, 0, siblings, Exclusive), top);
      RisingIsDisciplined(PlanOf(t), top, 0, []);
      assert PlanOf(t) + ChildRows(0, []) == PlanOf(t);
    case CheckDispatch(safety, rollout, sources, w) =>
      PrefixRises(safety, rollout, sources, w);
      RisingIsDisciplined(PlanOf(t), Row(CALLS, 0, 0), 0, []);
      assert PlanOf(t) + ChildRows(0, []) == PlanOf(t);
    case CallUpdate(safety, rollout, sources, w, call, children) =>
      PrefixRises(safety, rollout, sources, w);
      var rows := StorePrefix(safety, rollout, sources, w) + [Want(CallRow(call), Exclusive)];
      RisesAppend(StorePrefix(safety, rollout, sources, w), Row(CALLS, 0, 0), [Want(CallRow(call), Exclusive)], top);
      assert rows[|rows| - 1] == Want(CallRow(call), Exclusive);
      RisingIsDisciplined(rows, top, call, children);
    case ProviderAdmin(_) =>
      RisingIsDisciplined(PlanOf(t), top, 0, []);
      assert PlanOf(t) + ChildRows(0, []) == PlanOf(t);
    case RolloutAdmin(_) =>
      RisingIsDisciplined(PlanOf(t), top, 0, []);
      assert PlanOf(t) + ChildRows(0, []) == PlanOf(t);
    case OperatorRecovery(call, children) =>
      RisingIsDisciplined([Want(CallRow(call), Exclusive)], top, call, children);
  }

  // ---- Deadlock freedom

  /** A transaction in progress: what it will take, and how much of that it holds. */
  datatype Txn = Txn(plan: seq<Want>, held: nat)
  type Txns = map<nat, Txn>

  datatype LockStep = Begin(t: nat, work: Transaction) | Acquire(t: nat) | End(t: nat)

  predicate Conflicts(a: Want, b: Want) {
    a.lock == b.lock && (a.mode == Exclusive || b.mode == Exclusive)
  }

  predicate Holds(x: Txn, w: Want) {
    x.held <= |x.plan| && w in x.plan[..x.held]
  }

  /** `t` wants a lock that `u` holds in a conflicting mode. */
  ghost predicate WaitsFor(s: Txns, t: nat, u: nat) {
    && t in s && u in s && t != u && s[t].held < |s[t].plan|
    && exists w :: Holds(s[u], w) && Conflicts(s[t].plan[s[t].held], w)
  }

  ghost predicate Blocked(s: Txns, t: nat) {
    exists u :: WaitsFor(s, t, u)
  }

  /** Locks are granted when nobody else holds a conflicting one, and held to the end. */
  ghost function LockNext(s: Txns, step: LockStep): Txns {
    match step
    case Begin(t, work) => if t in s || !WellSelected(work) then s else s[t := Txn(PlanOf(work), 0)]
    case Acquire(t) =>
      if t !in s || s[t].held >= |s[t].plan| || Blocked(s, t) then s else s[t := s[t].(held := s[t].held + 1)]
    case End(t) => s - {t}
  }

  ghost function LockRun(steps: seq<LockStep>): Txns {
    if steps == [] then map[] else LockNext(LockRun(steps[..|steps| - 1]), steps[|steps| - 1])
  }

  ghost predicate LocksOk(s: Txns) {
    && (forall t :: t in s ==> Disciplined(s[t].plan) && s[t].held <= |s[t].plan|)
    && (forall t, u, a, b :: t in s && u in s && t != u && Holds(s[t], a) && Holds(s[u], b) ==> !Conflicts(a, b))
  }

  lemma GrantKeepsOk(s: Txns, t: nat)
    requires LocksOk(s) && t in s && s[t].held < |s[t].plan| && !Blocked(s, t)
    ensures LocksOk(s[t := s[t].(held := s[t].held + 1)])
  {
    hide Disciplined;
    hide Conflicts;
    var x := s[t];
    var x' := x.(held := x.held + 1);
    var wanted := x.plan[x.held];
    forall w | Holds(x', w) ensures Holds(x, w) || w == wanted {
      assert x.plan[..x'.held] == x.plan[..x.held] + [wanted];
    }
    forall u, a, b | u in s && u != t && Holds(x', a) && Holds(s[u], b) ensures !Conflicts(a, b) && !Conflicts(b, a) {
      ConflictsBothWays(a, b);
      assert !WaitsFor(s, t, u);
      assert Holds(x, a) || a == wanted;
    }
  }

  lemma ConflictsBothWays(a: Want, b: Want)
    ensures Conflicts(a, b) <==> Conflicts(b, a)
  {}

  lemma LockStepKeepsOk(s: Txns, step: LockStep)
    requires LocksOk(s)
    ensures LocksOk(LockNext(s, step))
  {
    hide Disciplined;
    hide Conflicts;
    hide PlanOf;
    match step
    case Begin(t, work) =>
      if WellSelected(work) {
        TransactionsAreDisciplined(work);
      }
    case Acquire(t) =>
      if LockNext(s, step) != s {
        GrantKeepsOk(s, t);
      }
    case End(t) =>
  }

  lemma {:induction false} LockRunKeepsOk(steps: seq<LockStep>)
    ensures LocksOk(LockRun(steps))
    decreases |steps|
  {
    if steps != [] {
      LockRunKeepsOk(steps[..|steps| - 1]);
      LockStepKeepsOk(LockRun(steps[..|steps| - 1]), steps[|steps| - 1]);
    }
  }

  function Next(x: Txn): Lock
    requires x.held < |x.plan|
  {
    x.plan[x.held].lock
  }

  /** Two holders of the same exclusive lock are the same transaction. */
  lemma ExclusiveIsAlone(s: Txns, t: nat, u: nat, w: Want)
    requires LocksOk(s) && t in s && u in s && Holds(s[t], w) && Holds(s[u], w) && w.mode == Exclusive
    ensures t == u
  {
    assert Conflicts(w, w);
  }

  /** Child rows are never waited for: whoever holds one also holds its call. */
  lemma OnlyRowsAreWaitedFor(s: Txns, t: nat, u: nat)
    requires LocksOk(s) && WaitsFor(s, t, u)
    ensures Next(s[t]).Row?
  {
    var w :| Holds(s[u], w) && Conflicts(s[t].plan[s[t].held], w);
    if w.lock.ChildRow? {
      var i :| 0 <= i < s[u].held && s[u].plan[i] == w;
      var cover := Want(CallRow(w.lock.call), Exclusive);
      assert cover in s[u].plan[..i] && cover in s[t].plan[..s[t].held];
      assert s[u].plan[..i] == s[u].plan[..s[u].held][..i];
      ExclusiveIsAlone(s, t, u, cover);
    }
  }

  /** Along a wait, the wanted locks strictly increase. */
  lemma WaitsRise(s: Txns, t: nat, u: nat)
    requires LocksOk(s) && WaitsFor(s, t, u) && Blocked(s, u)
    ensures Next(s[t]).Row? && s[u].held < |s[u].plan| && Next(s[u]).Row? && Before(Next(s[t]), Next(s[u]))
  {
    OnlyRowsAreWaitedFor(s, t, u);
    var v :| WaitsFor(s, u, v);
    OnlyRowsAreWaitedFor(s, u, v);
    var w :| Holds(s[u], w) && Conflicts(s[t].plan[s[t].held], w);
    var i :| 0 <= i < s[u].held && s[u].plan[i] == w;
    assert s[u].plan[s[u].held].lock.Row?;
  }

  /** A chain of waits, each transaction waiting for the next. */
  ghost predicate WaitChain(s: Txns, chain: seq<nat>) {
    |chain| >= 2 && forall i :: 0 <= i < |chain| - 1 ==> WaitsFor(s, chain[i], chain[i + 1])
  }

  lemma {:induction false} ChainRises(s: Txns, chain: seq<nat>)
    requires LocksOk(s) && WaitChain(s, chain) && Blocked(s, chain[|chain| - 1])
    ensures chain[0] in s && chain[|chain| - 1] in s
    ensures var a, b := s[chain[0]], s[chain[|chain| - 1]];
            a.held < |a.plan| && b.held < |b.plan| && Next(a).Row? && Next(b).Row? && Before(Next(a), Next(b))
    decreases |chain|
  {
    if |chain| == 2 {
      assert WaitsFor(s, chain[0], chain[1]);
      WaitsRise(s, chain[0], chain[1]);
    } else {
      var tail := chain[1..];
      forall i | 0 <= i < |tail| - 1 ensures WaitsFor(s, tail[i], tail[i + 1]) {
        assert WaitsFor(s, chain[i + 1], chain[i + 2]);
      }
      ChainRises(s, tail);
      assert WaitsFor(s, chain[0], chain[1]) && WaitsFor(s, chain[1], chain[2]);
      WaitsRise(s, chain[0], chain[1]);
    }
  }

  /** In no reachable state do transactions wait for each other in a circle. */
  lemma NoCircularWait(steps: seq<LockStep>, circle: seq<nat>)
    requires |circle| >= 2 && circle[0] == circle[|circle| - 1]
    ensures !WaitChain(LockRun(steps), circle)
  {
    var s := LockRun(steps);
    LockRunKeepsOk(steps);
    if WaitChain(s, circle) {
      assert WaitsFor(s, circle[0], circle[1]);
      ChainRises(s, circle);
    }
  }

  ghost function Above(s: Txns, t: nat): set<nat>
    requires t in s && s[t].held < |s[t].plan| && Next(s[t]).Row?
  {
    set u | u in s && s[u].held < |s[u].plan| && Next(s[u]).Row? && Before(Next(s[t]), Next(s[u]))
  }

  lemma {:induction false} FindRunnable(s: Txns, t: nat) returns (u: nat)
    requires LocksOk(s) && t in s
    ensures u in s && !Blocked(s, u)
    decreases if Blocked(s, t) then 1 + |(if s[t].held < |s[t].plan| && Next(s[t]).Row? then Above(s, t) else {})| else 0
  {
    if Blocked(s, t) {
      u :| WaitsFor(s, t, u);
      OnlyRowsAreWaitedFor(s, t, u);
      if Blocked(s, u) {
        WaitsRise(s, t, u);
        assert Above(s, u) < Above(s, t) by {
          assert u in Above(s, t) && u !in Above(s, u);
        }
        SmallerSet(Above(s, u), Above(s, t));
        u := FindRunnable(s, u);
      }
    } else {
      u := t;
    }
  }

  lemma SmallerSet(a: set<nat>, b: set<nat>)
    requires a < b
    ensures |a| < |b|
  {
    assert b == a + (b - a);
    assert b - a != {};
  }

  /** Deadlock freedom: in every reachable state with unfinished transactions, one of them has all
      its locks or can take its next one. */
  lemma SomeTransactionCanStep(steps: seq<LockStep>)
    requires LockRun(steps) != map[]
    ensures exists t :: t in LockRun(steps) && !Blocked(LockRun(steps), t)
  {
    var s := LockRun(steps);
    LockRunKeepsOk(steps);
    var t :| t in s.Keys;
    var u := FindRunnable(s, t);
  }

  // ---- What re-entry can do

  /** A transaction that passes the guard and enters the barrier again after its projection lock, and
      one that enters once; the guard refuses no step of either. */
  const REENTERING := [EnterBarrier(false), LockRuntime(false), AcquireProjection, EnterBarrier(false), LockRuntime(false), LockRagCorpus(true)]
  const ENTERING_ONCE := [EnterBarrier(false), LockRuntime(false), LockRagCorpus(true), AcquireProjection]

  function LocksOf(calls: seq<GuardCall>): seq<Want> { GuardRun(calls).1 }

  lemma GuardRunOneMore(calls: seq<GuardCall>, call: GuardCall)
    ensures var (order, taken) := GuardRun(calls);
            GuardRun(calls + [call]) == (Guarded(order, taken, call).0, Guarded(order, taken, call).1)
  {
    assert (calls + [call])[..|calls|] == calls;
  }

  const GENERATION_SHARED := Want(Row(GENERATION, 0, 0), Shared)
  const RUNTIME_SHARED := Want(Row(RUNTIME_KEY, 0, 0), Shared)
  const CORPUS := Want(Row(RAG_CORPUS, 0, 0), Exclusive)
  const PROJECTED := Want(Row(PROJECTION, 0, 0), Exclusive)

  lemma ReenteringLocks()
    ensures LocksOf(REENTERING) == [GENERATION_SHARED, RUNTIME_SHARED, PROJECTED, GENERATION_SHARED, RUNTIME_SHARED, CORPUS]
    ensures Entries(REENTERING) == 2
  {
    var c1, c2, c3, c4, c5 := REENTERING[..1], REENTERING[..2], REENTERING[..3], REENTERING[..4], REENTERING[..5];
    assert c1 == [] + [REENTERING[0]] && c2 == c1 + [REENTERING[1]] && c3 == c2 + [REENTERING[2]] && c4 == c3 + [REENTERING[3]]
      && c5 == c4 + [REENTERING[4]] && REENTERING == c5 + [REENTERING[5]];
    GuardRunOneMore([], REENTERING[0]);
    GuardRunOneMore(c1, REENTERING[1]);
    GuardRunOneMore(c2, REENTERING[2]);
    GuardRunOneMore(c3, REENTERING[3]);
    GuardRunOneMore(c4, REENTERING[4]);
    GuardRunOneMore(c5, REENTERING[5]);
    assert REENTERING[..5][..4] == c4 && c4[..3] == c3 && c3[..2] == c2 && c2[..1] == c1 && c1[..0] == [];
    assert Entries(c1) == 1 && Entries(c2) == 1 && Entries(c3) == 1 && Entries(c4) == 2 && Entries(c5) == 2;
  }

  lemma EnteringOnceLocks()
    ensures LocksOf(ENTERING_ONCE) == [GENERATION_SHARED, RUNTIME_SHARED, CORPUS, PROJECTED]
  {
    var c1, c2, c3 := ENTERING_ONCE[..1], ENTERING_ONCE[..2], ENTERING_ONCE[..3];
    assert c1 == [] + [ENTERING_ONCE[0]] && c2 == c1 + [ENTERING_ONCE[1]] && c3 == c2 + [ENTERING_ONCE[2]] && ENTERING_ONCE == c3 + [ENTERING_ONCE[3]];
    GuardRunOneMore([], ENTERING_ONCE[0]);
    GuardRunOneMore(c1, ENTERING_ONCE[1]);
    GuardRunOneMore(c2, ENTERING_ONCE[2]);
    GuardRunOneMore(c3, ENTERING_ONCE[3]);
  }

  ghost predicate Deadlocked(s: Txns, t: nat, u: nat) { WaitsFor(s, t, u) && WaitsFor(s, u, t) }

  /** Grants a transaction its next `n` locks in a row. */
  ghost function AcquireTimes(s: Txns, t: nat, n: nat): Txns { if n == 0 then s else LockNext(AcquireTimes(s, t, n - 1), Acquire(t)) }

  lemma {:induction false} FreeLocksAreGranted(s: Txns, t: nat, n: nat)
    requires t in s && s[t].held + n <= |s[t].plan|
    requires forall u, w, i :: u in s && u != t && Holds(s[u], w) && s[t].held <= i < s[t].held + n ==> !Conflicts(s[t].plan[i], w)
    ensures AcquireTimes(s, t, n) == s[t := s[t].(held := s[t].held + n)]
    decreases n
  {
    hide Conflicts, Holds;
    if n == 0 {
      assert s[t := s[t].(held := s[t].held + 0)] == s;
    } else {
      FreeLocksAreGranted(s, t, n - 1);
      var before := AcquireTimes(s, t, n - 1);
      forall u: nat ensures !WaitsFor(before, t, u) {
        assert u in s && u != t ==> before[u] == s[u];
      }
      assert before[t := before[t].(held := before[t].held + 1)] == s[t := s[t].(held := s[t].held + n)];
    }
  }

  const REENTERING_LOCKS := [GENERATION_SHARED, RUNTIME_SHARED, PROJECTED, GENERATION_SHARED, RUNTIME_SHARED, CORPUS]
  const ORDERLY_LOCKS := [GENERATION_SHARED, RUNTIME_SHARED, CORPUS, PROJECTED]

  lemma BothAreGranted()
    ensures var start: Txns := map[1 := Txn(REENTERING_LOCKS, 0), 2 := Txn(ORDERLY_LOCKS, 0)];
            AcquireTimes(AcquireTimes(start, 1, 5), 2, 3) == map[1 := Txn(REENTERING_LOCKS, 5), 2 := Txn(ORDERLY_LOCKS, 3)]
  {
    var p, q := REENTERING_LOCKS, ORDERLY_LOCKS;
    var start: Txns := map[1 := Txn(p, 0), 2 := Txn(q, 0)];
    assert forall w :: !Holds(start[2], w);
    FreeLocksAreGranted(start, 1, 5);
    var s := AcquireTimes(start, 1, 5);
    assert s == map[1 := Txn(p, 5), 2 := Txn(q, 0)];
    assert p[..5] == [GENERATION_SHARED, RUNTIME_SHARED, PROJECTED, GENERATION_SHARED, RUNTIME_SHARED];
    FreeLocksAreGranted(s, 2, 3);
    assert AcquireTimes(s, 2, 3) == map[1 := Txn(p, 5), 2 := Txn(q, 3)];
  }

  /** The order is not pedantry: a re-entering transaction and an orderly one, both admitted by the
      guard at every step, can wait for each other. */
  lemma ReentryCanDeadlock()
    ensures Entries(REENTERING) == 2 && Entries(ENTERING_ONCE) == 1
    ensures var start: Txns := map[1 := Txn(LocksOf(REENTERING), 0), 2 := Txn(LocksOf(ENTERING_ONCE), 0)];
            Deadlocked(AcquireTimes(AcquireTimes(start, 1, 5), 2, 3), 1, 2)
  {
    hide LocksOf, Entries, AcquireTimes;
    ReenteringLocks();
    EnteringOnceLocks();
    OneEntry();
    BothAreGranted();
    var t: Txns := map[1 := Txn(REENTERING_LOCKS, 5), 2 := Txn(ORDERLY_LOCKS, 3)];
    assert Holds(t[2], CORPUS) by { assert ORDERLY_LOCKS[..3][2] == CORPUS; }
    assert Holds(t[1], PROJECTED) by { assert REENTERING_LOCKS[..5][2] == PROJECTED; }
    assert Conflicts(REENTERING_LOCKS[5], CORPUS) && Conflicts(ORDERLY_LOCKS[3], PROJECTED);
  }

  lemma OneEntry()
    ensures Entries(ENTERING_ONCE) == 1
  {
    var c1, c2, c3 := ENTERING_ONCE[..1], ENTERING_ONCE[..2], ENTERING_ONCE[..3];
    assert ENTERING_ONCE[..3][..2] == c2 && c2[..1] == c1 && c1[..0] == [];
    assert Entries(c1) == 1 && Entries(c2) == 1 && Entries(c3) == 1;
  }
}
