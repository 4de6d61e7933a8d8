/** Control of a rollout row: staged percentage authorization behind audited gates, the breaker that
    audits open and operators close, and the event log of both. */
module RolloutControl {
  import opened Outcomes

  const MAX_REASON := 500
  const MAX_GATE := 120
  const SHADOW_COMPARISONS := 500
  const CANARY_PROMOTIONS := 500
  const MANDATORY_AUDITS := 50

  /** The counters the gates read. */
  datatype Counters = Counters(
    shadowCompleted: nat,
    shadowSupported: nat,
    promotions: nat,
    auditsSelected: nat,
    auditsCompleted: nat,
    auditsCritical: nat,
    confirmedMandatory: nat,
    pendingMandatory: nat,
    invalidated: nat,
    correctedCriticals: nat)

  datatype Row = Row(version: nat, epoch: nat, percentage: nat, breakerOpen: bool, generation: nat, lastSequence: nat,
                     gate: string, counters: Counters)

  datatype Kind = PercentageAuthorized | BreakerOpened | BreakerClosed

  /** A value before and after an event. */
  datatype Change<T> = Change(prior: T, next: T)
  datatype Event = Event(sequence: nat, kind: Kind, version: Change<nat>, epoch: Change<nat>, percentage: Change<nat>,
                         breaker: Change<bool>, generation: Change<nat>, gate: string)

  /** Audits by the cohort they were sampled into; a manual audit is asked for by a person. */
  datatype Cohort = FirstFifty | Sampled | Manual

  /** The audit table by cohort: audits still pending, and what became of the others. */
  datatype Audits = Audits(pending: map<Cohort, nat>, manualCompleted: nat, selectedInvalidated: nat)

  datatype Control = Control(row: Row, log: seq<Event>, audits: Audits)

  const NO_COUNTERS := Counters(0, 0, 0, 0, 0, 0, 0, 0, 0, 0)
  const NO_AUDITS := Audits(map[FirstFifty := 0, Sampled := 0, Manual := 0], 0, 0)
  const DEFAULT := Control(Row(0, 0, 0, false, 0, 0, "", NO_COUNTERS), [], NO_AUDITS)

  function Pending(a: Audits, cohort: Cohort): nat { if cohort in a.pending then a.pending[cohort] else 0 }

  // ---- The gates

  /** Supported share of the shadow comparisons in units of 10^-4, rounded down. */
  function ShadowPrecision(c: Counters): nat {
    if c.shadowCompleted == 0 then 0 else c.shadowSupported * 10_000 / c.shadowCompleted
  }

  predicate ShadowGatePassed(r: Row) {
    var c := r.counters;
    && c.shadowCompleted >= SHADOW_COMPARISONS && ShadowPrecision(c) >= 9_900
    && c.auditsCritical == 0 && c.correctedCriticals == 0 && !r.breakerOpen
  }

  predicate CanaryGatePassed(r: Row) {
    var c := r.counters;
    && r.percentage == 10 && c.promotions >= CANARY_PROMOTIONS
    && c.confirmedMandatory == MANDATORY_AUDITS && c.pendingMandatory == 0
    && c.auditsSelected == c.auditsCompleted
    && c.auditsCritical == 0 && c.correctedCriticals == 0
    && c.auditsCompleted > 0 && 100 * (c.auditsCompleted - c.auditsCritical) >= 99 * c.auditsCompleted
    && !r.breakerOpen
  }

  /** The stages are 0, 10 and 100, each behind its gate, none skipped and none repeated. */
  function RequireTransition(r: Row, percentage: nat): Result<nat> {
    if percentage != 10 && percentage != 100 then Err("rollout percentage is unavailable")
    else if percentage <= r.percentage then Err("rollout percentage cannot be replayed")
    else if r.percentage == 0 then
      if percentage == 100 then Err("rollout cannot jump from zero to full")
      else if !ShadowGatePassed(r) then Err("shadow rollout gate is incomplete")
      else Ok(10)
    else if r.percentage == 10 then
      if percentage != 100 || !CanaryGatePassed(r) then Err("canary rollout gate is incomplete") else Ok(100)
    else Err("rollout percentage cannot increase")
  }

  // ---- Operator control

  /** The operator's normalised input and the state of the runtime key. */
  datatype Input = Input(expectedVersion: nat, reason: string, gate: string, runtimeReady: bool)

  predicate InputValid(i: Input) { 1 <= |i.reason| <= MAX_REASON && 1 <= |i.gate| <= MAX_GATE }

  /** One controlled change: row and event move together. `reported` is the breaker flag the event
      gives as its outcome. */
  function Controlled(c: Control, kind: Kind, percentage: nat, breakerOpen: bool, reported: bool, gate: string): Control {
    var r := c.row;
    var r' := r.(version := r.version + 1, epoch := r.epoch + 1, percentage := percentage, breakerOpen := breakerOpen,
                 generation := r.generation + 1, gate := gate, lastSequence := r.lastSequence + 1);
    c.(row := r',
       log := c.log + [Event(r.lastSequence + 1, kind, Change(r.version, r'.version), Change(r.epoch, r'.epoch),
                             Change(r.percentage, percentage), Change(r.breakerOpen, reported),
                             Change(r.generation, r'.generation), gate)])
  }

  /** The event of an authorization always reports a closed breaker; the flag itself is not written. */
  function Authorize(c: Control, i: Input, percentage: nat): Result<Control> {
    if !InputValid(i) then Err("rollout input is invalid")
    else if !i.runtimeReady then Err("runtime key state is unavailable")
    else if c.row.version != i.expectedVersion then Err("rollout state version changed")
    else match RequireTransition(c.row, percentage)
      case Err(e) => Err(e)
      case Ok(authorized) => Ok(Controlled(c, PercentageAuthorized, authorized, c.row.breakerOpen, false, i.gate))
  }

  predicate AnyPending(a: Audits) { Pending(a, FirstFifty) + Pending(a, Sampled) + Pending(a, Manual) > 0 }

  /** Closing waits for every pending audit and for remediation, which is decided elsewhere. */
  function CloseBreaker(c: Control, i: Input, unresolved: bool): Result<Control> {
    if !InputValid(i) then Err("rollout input is invalid")
    else if !i.runtimeReady then Err("runtime key state is unavailable")
    else if c.row.version != i.expectedVersion then Err("rollout state version changed")
    else if !c.row.breakerOpen then Err("rollout breaker is not open")
    else if c.row.counters.correctedCriticals != 0 then Err("audit correction requires a new reviewed policy")
    else if AnyPending(c.audits) || unresolved then Err("rollout remediation must be resolved before close")
    else Ok(Controlled(c, BreakerClosed, 0, false, false, i.gate))
  }

  // ---- Promotions, comparisons and audits

  function Touch(c: Control, counters: Counters): Control {
    c.(row := c.row.(version := c.row.version + 1, counters := counters))
  }

  /** An open breaker only advances the version; otherwise it opens with an event, at percentage 0. */
  function OpenBreaker(c: Control): Control {
    if c.row.breakerOpen then Touch(c, c.row.counters) else Controlled(c, BreakerOpened, 0, true, true, c.row.gate)
  }

  /** The control epoch and generation a promotion was selected under, and its percentage. */
  datatype Selection = Selection(epoch: nat, generation: nat, authorized: nat)

  function AddPending(a: Audits, cohort: Cohort): Audits { a.(pending := a.pending[cohort := Pending(a, cohort) + 1]) }

  function DropPending(a: Audits, cohort: Cohort): Audits
    requires Pending(a, cohort) > 0
  {
    a.(pending := a.pending[cohort := Pending(a, cohort) - 1])
  }

  /** Reserves a promotion: the first fifty confirmed ones are all audited, later ones by sampling. */
  function ReservePromotion(c: Control, s: Selection, sampled: bool): Result<Control> {
    var r, n := c.row, c.row.counters;
    if r.breakerOpen || r.epoch != s.epoch || r.generation != s.generation || r.percentage < s.authorized then
      Err("promotion rollout control changed")
    else if n.confirmedMandatory < MANDATORY_AUDITS then
      if n.confirmedMandatory + n.pendingMandatory >= MANDATORY_AUDITS then Err("mandatory audit slots are full")
      else Ok(Touch(c, n.(promotions := n.promotions + 1, auditsSelected := n.auditsSelected + 1,
                          pendingMandatory := n.pendingMandatory + 1)).(audits := AddPending(c.audits, FirstFifty)))
    else if sampled then
      Ok(Touch(c, n.(promotions := n.promotions + 1, auditsSelected := n.auditsSelected + 1)).(audits := AddPending(c.audits, Sampled)))
    else Ok(Touch(c, n.(promotions := n.promotions + 1)))
  }

  function CompareShadow(c: Control, supported: bool): Control {
    var n := c.row.counters;
    Touch(c, n.(shadowCompleted := n.shadowCompleted + 1, shadowSupported := n.shadowSupported + if supported then 1 else 0))
  }

  /** The mandatory counter after one of its audits leaves the pending state. */
  function Released(n: Counters, cohort: Cohort): Result<Counters> {
    if cohort != FirstFifty then Ok(n)
    else if n.pendingMandatory == 0 then Err("mandatory audit counter is inconsistent")
    else Ok(n.(pendingMandatory := n.pendingMandatory - 1))
  }

  function CompleteAudit(c: Control, cohort: Cohort, critical: bool): Result<Control> {
    if Pending(c.audits, cohort) == 0 then Err("post audit is unavailable")
    else match Released(c.row.counters, cohort)
      case Err(e) => Err(e)
      case Ok(n) =>
        var n' := n.(auditsCompleted := n.auditsCompleted + 1, auditsCritical := n.auditsCritical + (if critical then 1 else 0),
                     confirmedMandatory := n.confirmedMandatory + if !critical && cohort == FirstFifty then 1 else 0);
        var audits := DropPending(c.audits, cohort).(manualCompleted := c.audits.manualCompleted + if cohort == Manual then 1 else 0);
        var c' := c.(row := c.row.(counters := n'), audits := audits);
        Ok(if critical then OpenBreaker(c') else Touch(c', n'))
  }

  /** A confirmed audit is corrected later. */
  function CorrectAudit(c: Control): Control {
    var n := c.row.counters;
    OpenBreaker(c.(row := c.row.(counters := n.(correctedCriticals := n.correctedCriticals + 1))))
  }

  /** The source of a pending audit disappears. The version is not advanced. */
  function InvalidateAudit(c: Control, cohort: Cohort): Result<Control> {
    if Pending(c.audits, cohort) == 0 then Err("post audit is unavailable")
    else match Released(c.row.counters, cohort)
      case Err(e) => Err(e)
      case Ok(n) =>
        Ok(c.(row := c.row.(counters := n.(invalidated := n.invalidated + 1)),
              audits := DropPending(c.audits, cohort).(selectedInvalidated := c.audits.selectedInvalidated + if cohort == Manual then 0 else 1)))
  }

  // ---- The services

  class RolloutService {
    var row: Row
    var log: seq<Event>
    var audits: Audits

    function View(): Control
      reads this
    {
      Control(row, log, audits)
    }

    constructor ()
      ensures View() == DEFAULT
    {
      row, log, audits := DEFAULT.row, DEFAULT.log, DEFAULT.audits;
    }

    method AuthorizePercentage(i: Input, percentage: nat) returns (outcome: Result<()>)
      modifies this
      ensures var r := Authorize(old(View()), i, percentage);
              outcome.Ok? == r.Ok? && View() == (if r.Ok? then r.value else old(View()))
    {
      hide RequireTransition;
      if !InputValid(i) || !i.runtimeReady || row.version != i.expectedVersion {
        return Err("rollout authorization is refused");
      }
      var authorized := RequireTransition(row, percentage);
      if authorized.Err? {
        return Err(authorized.reason);
      }
      var prior := row;
      row := row.(version := row.version + 1, epoch := row.epoch + 1, percentage := authorized.value);
      row := row.(generation := row.generation + 1, gate := i.gate);
      log := log + [Event(prior.lastSequence + 1, PercentageAuthorized, Change(prior.version, row.version), Change(prior.epoch, row.epoch),
                          Change(prior.percentage, row.percentage), Change(prior.breakerOpen, false),
                          Change(prior.generation, row.generation), i.gate)];
      row := row.(lastSequence := prior.lastSequence + 1);
      return Ok(());
    }

    method CloseRolloutBreaker(i: Input, unresolved: bool) returns (outcome: Result<()>)
      modifies this
      ensures var r := CloseBreaker(old(View()), i, unresolved);
              outcome.Ok? == r.Ok? && View() == (if r.Ok? then r.value else old(View()))
    {
      if !InputValid(i) || !i.runtimeReady || row.version != i.expectedVersion {
        return Err("rollout close is refused");
      }
      if !row.breakerOpen || row.counters.correctedCriticals != 0 || AnyPending(audits) || unresolved {
        return Err("rollout breaker cannot be closed");
      }
      var prior := row;
      row := row.(version := row.version + 1, epoch := row.epoch + 1, breakerOpen := false, percentage := 0);
      row := row.(generation := row.generation + 1, gate := i.gate);
      log := log + [Event(prior.lastSequence + 1, BreakerClosed, Change(prior.version, row.version), Change(prior.epoch, row.epoch),
                          Change(prior.percentage, 0), Change(true, false), Change(prior.generation, row.generation), i.gate)];
      row := row.(lastSequence := prior.lastSequence + 1);
      return Ok(());
    }

    method OpenRolloutBreaker()
      modifies this`row, this`log
      ensures View() == OpenBreaker(old(View()))
    {
      if row.breakerOpen {
        row := row.(version := row.version + 1);
        return;
      }
      var prior := row;
      row := row.(version := row.version + 1, epoch := row.epoch + 1, breakerOpen := true, percentage := 0);
      row := row.(generation := row.generation + 1);
      log := log + [Event(prior.lastSequence + 1, BreakerOpened, Change(prior.version, row.version), Change(prior.epoch, row.epoch),
                          Change(prior.percentage, 0), Change(false, true), Change(prior.generation, row.generation), row.gate)];
      row := row.(lastSequence := prior.lastSequence + 1);
    }

    method CompletePostAudit(cohort: Cohort, critical: bool) returns (outcome: Result<()>)
      modifies this
      ensures var r := CompleteAudit(old(View()), cohort, critical);
              outcome.Ok? == r.Ok? && View() == (if r.Ok? then r.value else old(View()))
    {
      if Pending(audits, cohort) == 0 {
        return Err("post audit is unavailable");
      }
      var n := row.counters;
      if cohort == FirstFifty {
        if n.pendingMandatory == 0 {
          return Err("mandatory audit counter is inconsistent");
        }
        n := n.(pendingMandatory := n.pendingMandatory - 1);
      }
      n := n.(auditsCompleted := n.auditsCompleted + 1);
      if critical {
        n := n.(auditsCritical := n.auditsCritical + 1);
      } else if cohort == FirstFifty {
        n := n.(confirmedMandatory := n.confirmedMandatory + 1);
      }
      row := row.(counters := n);
      audits := DropPending(audits, cohort);
      if cohort == Manual {
        audits := audits.(manualCompleted := audits.manualCompleted + 1);
      }
      if critical {
        OpenRolloutBreaker();
      } else {
        row := row.(version := row.version + 1);
      }
      return Ok(());
    }
  }

  // ---- Runs

  datatype Op =
    | AuthorizeOp(input: Input, percentage: nat)
    | CloseOp(input: Input, unresolved: bool)
    | PromoteOp(selection: Selection, sampled: bool)
    | PredictOp
    | CompareOp(supported: bool)
    | RequestManualOp
    | CompleteOp(cohort: Cohort, critical: bool)
    | CorrectOp
    | InvalidateOp(cohort: Cohort)

  function Taken(c: Control, r: Result<Control>): Control { if r.Ok? then r.value else c }

  function Next(c: Control, op: Op): Control {
    match op
    case AuthorizeOp(i, percentage) => Taken(c, Authorize(c, i, percentage))
    case CloseOp(i, unresolved) => Taken(c, CloseBreaker(c, i, unresolved))
    case PromoteOp(s, sampled) => Taken(c, ReservePromotion(c, s, sampled))
    case PredictOp => Touch(c, c.row.counters)
    case CompareOp(supported) => CompareShadow(c, supported)
    case RequestManualOp => c.(audits := AddPending(c.audits, Manual))
    case CompleteOp(cohort, critical) => Taken(c, CompleteAudit(c, cohort, critical))
    case CorrectOp => CorrectAudit(c)
    case InvalidateOp(cohort) => Taken(c, InvalidateAudit(c, cohort))
  }

  function Run(c: Control, ops: seq<Op>): Control {
    if ops == [] then c else Next(Run(c, ops[..|ops| - 1]), ops[|ops| - 1])
  }

  // ---- The log against the row

  predicate Follows(earlier: Event, later: Event) {
    && later.sequence == earlier.sequence + 1
    && earlier.version.next <= later.version.prior
    && earlier.epoch.next == later.epoch.prior && earlier.percentage.next == later.percentage.prior
    && earlier.breaker.next == later.breaker.prior && earlier.generation.next == later.generation.prior
  }

  predicate StartsAtDefault(e: Event) {
    e.sequence == 1 && e.epoch.prior == 0 && e.percentage.prior == 0 && !e.breaker.prior && e.generation.prior == 0
  }

  predicate EndsAt(e: Event, r: Row) {
    && e.sequence == r.lastSequence && e.version.next <= r.version
    && e.epoch.next == r.epoch && e.percentage.next == r.percentage && e.breaker.next == r.breakerOpen
    && e.generation.next == r.generation
  }

  /** What each kind of event may say. */
  predicate Sensible(e: Event) {
    && e.version.next == e.version.prior + 1 && e.epoch.next == e.epoch.prior + 1 && e.generation.next == e.generation.prior + 1
    && match e.kind
       case PercentageAuthorized => !e.breaker.prior && !e.breaker.next
         && (e.percentage == Change(0, 10) || e.percentage == Change(10, 100))
       case BreakerOpened => !e.breaker.prior && e.breaker.next && e.percentage.next == 0
       case BreakerClosed => e.breaker.prior && !e.breaker.next && e.percentage.next == 0
  }

  /** Reading the log from the default row on, event by event, ends at the row. */
  ghost predicate LogTellsRow(c: Control) {
    && (forall i, j :: 0 <= i && j == i + 1 && j < |c.log| ==> Follows(c.log[i], c.log[j]))
    && (forall i :: 0 <= i < |c.log| ==> Sensible(c.log[i]))
    && |c.log| == c.row.lastSequence
    && (if c.log == [] then c.row.epoch == c.row.percentage == c.row.generation == 0 && !c.row.breakerOpen
        else StartsAtDefault(c.log[0]) && EndsAt(c.log[|c.log| - 1], c.row))
  }

  /** An authorization is only ever granted with a closed breaker: both gates demand it. */
  lemma AuthorizationNeedsClosedBreaker(c: Control, i: Input, percentage: nat)
    requires Authorize(c, i, percentage).Ok?
    ensures !c.row.breakerOpen && c.row.counters.auditsCritical == 0 && c.row.counters.correctedCriticals == 0
    ensures (c.row.percentage == 0 && percentage == 10) || (c.row.percentage == 10 && percentage == 100)
    ensures Authorize(c, i, percentage).value.row.percentage == percentage
  {}

  lemma ControlledKeepsLog(c: Control, kind: Kind, percentage: nat, breakerOpen: bool, gate: string)
    requires LogTellsRow(c)
    requires match kind
             case PercentageAuthorized => !c.row.breakerOpen && !breakerOpen && ((c.row.percentage == 0 && percentage == 10) || (c.row.percentage == 10 && percentage == 100))
             case BreakerOpened => !c.row.breakerOpen && breakerOpen && percentage == 0
             case BreakerClosed => c.row.breakerOpen && !breakerOpen && percentage == 0
    ensures LogTellsRow(Controlled(c, kind, percentage, breakerOpen, breakerOpen, gate))
  {
    var c' := Controlled(c, kind, percentage, breakerOpen, breakerOpen, gate);
    forall i, j | 0 <= i && j == i + 1 && j < |c'.log| ensures Follows(c'.log[i], c'.log[j]) {
      if j < |c.log| {
        assert Follows(c.log[i], c.log[j]);
      }
    }
    assert Sensible(c'.log[|c.log|]);
  }

  /** Between events, a row that differs only in its counters and a later version is told as well. */
  lemma CountersAreNotLogged(c: Control, c': Control)
    requires LogTellsRow(c) && c'.log == c.log && c.row.version <= c'.row.version
    requires c'.row == c.row.(version := c'.row.version, counters := c'.row.counters)
    ensures LogTellsRow(c')
  {}

  lemma OpeningKeepsLog(c: Control)
    requires LogTellsRow(c)
    ensures LogTellsRow(OpenBreaker(c))
  {
    hide LogTellsRow;
    if c.row.breakerOpen {
      CountersAreNotLogged(c, OpenBreaker(c));
    } else {
      ControlledKeepsLog(c, BreakerOpened, 0, true, c.row.gate);
    }
  }

  lemma StepKeepsLog(c: Control, op: Op)
    requires LogTellsRow(c)
    ensures LogTellsRow(Next(c, op))
  {
    hide LogTellsRow, Controlled, OpenBreaker, RequireTransition;
    match op
    case AuthorizeOp(i, percentage) =>
      if Authorize(c, i, percentage).Ok? {
        AuthorizationNeedsClosedBreaker(c, i, percentage);
        TransitionIsRequested(c.row, percentage);
        ControlledKeepsLog(c, PercentageAuthorized, percentage, false, i.gate);
      }
    case CloseOp(i, unresolved) =>
      if CloseBreaker(c, i, unresolved).Ok? {
        ControlledKeepsLog(c, BreakerClosed, 0, false, i.gate);
      }
    case CompleteOp(cohort, critical) =>
      if CompleteAudit(c, cohort, critical).Ok? {
        var n := Released(c.row.counters, cohort).value;
        var n' := n.(auditsCompleted := n.auditsCompleted + 1, auditsCritical := n.auditsCritical + (if critical then 1 else 0),
                     confirmedMandatory := n.confirmedMandatory + if !critical && cohort == FirstFifty then 1 else 0);
        var audits := DropPending(c.audits, cohort).(manualCompleted := c.audits.manualCompleted + if cohort == Manual then 1 else 0);
        var c' := c.(row := c.row.(counters := n'), audits := audits);
        CountersAreNotLogged(c, c');
        if critical { OpeningKeepsLog(c'); } else { CountersAreNotLogged(c, Next(c, op)); }
      }
    case CorrectOp =>
      var n := c.row.counters;
      var c' := c.(row := c.row.(counters := n.(correctedCriticals := n.correctedCriticals + 1)));
      CountersAreNotLogged(c, c');
      OpeningKeepsLog(c');
    case PromoteOp(_, _) => CountersAreNotLogged(c, Next(c, op));
    case PredictOp => CountersAreNotLogged(c, Next(c, op));
    case CompareOp(_) => CountersAreNotLogged(c, Next(c, op));
    case RequestManualOp => CountersAreNotLogged(c, Next(c, op));
    case InvalidateOp(_) => CountersAreNotLogged(c, Next(c, op));
  }

  lemma TransitionIsRequested(r: Row, percentage: nat)
    ensures RequireTransition(r, percentage).Ok? ==> RequireTransition(r, percentage).value == percentage
  {}

  /** Over every run the event log, read from the default row, ends at the row: epoch, percentage,
      breaker, generation and sequence. */
  lemma {:induction false} LogTellsEveryRow(ops: seq<Op>)
    ensures LogTellsRow(Run(DEFAULT, ops))
    decreases |ops|
  {
    if ops != [] {
      LogTellsEveryRow(ops[..|ops| - 1]);
      StepKeepsLog(Run(DEFAULT, ops[..|ops| - 1]), ops[|ops| - 1]);
    }
  }

  /** Full rollout is always authorized out of the canary stage that the event just before it entered. */
  lemma FullRolloutFollowsCanary(ops: seq<Op>, i: nat)
    requires i < |Run(DEFAULT, ops).log| && Run(DEFAULT, ops).log[i].percentage.next == 100
    ensures var log := Run(DEFAULT, ops).log;
            && i > 0 && log[i].kind == PercentageAuthorized && log[i - 1].kind == PercentageAuthorized
            && log[i - 1].percentage == Change(0, 10)
  {
    hide Run;
    LogTellsEveryRow(ops);
    var log := Run(DEFAULT, ops).log;
    assert Sensible(log[i]);
    if i > 0 {
      assert Follows(log[i - 1], log[i]) && Sensible(log[i - 1]);
    }
  }

  // ---- What the counters mean

  /** The stage is zero while the breaker is open and after any critical finding; mandatory slots are
      never overbooked and count exactly the pending audits; every selected audit is pending,
      completed or invalidated. */
  predicate Staged(c: Control) {
    var n := c.row.counters;
    && (c.row.percentage == 0 || c.row.percentage == 10 || c.row.percentage == 100)
    && (c.row.breakerOpen || n.auditsCritical > 0 || n.correctedCriticals > 0 ==> c.row.percentage == 0)
    && n.confirmedMandatory + n.pendingMandatory <= MANDATORY_AUDITS
    && n.pendingMandatory == Pending(c.audits, FirstFifty)
    && n.auditsSelected + c.audits.manualCompleted
       == n.auditsCompleted + c.audits.selectedInvalidated + Pending(c.audits, FirstFifty) + Pending(c.audits, Sampled)
  }

  lemma OpeningIsStaged(c: Control)
    requires Staged(c.(row := c.row.(percentage := 0))) && (c.row.breakerOpen ==> c.row.percentage == 0)
    ensures Staged(OpenBreaker(c))
  {}

  lemma CompletionIsStaged(c: Control, cohort: Cohort, critical: bool)
    requires Staged(c) && CompleteAudit(c, cohort, critical).Ok?
    ensures Staged(CompleteAudit(c, cohort, critical).value)
  {}

  lemma AuthorizationIsStaged(c: Control, i: Input, percentage: nat)
    requires Staged(c) && Authorize(c, i, percentage).Ok?
    ensures Staged(Authorize(c, i, percentage).value)
  {
    AuthorizationNeedsClosedBreaker(c, i, percentage);
    hide RequireTransition;
  }

  lemma PromotionIsStaged(c: Control, s: Selection, sampled: bool)
    requires Staged(c) && ReservePromotion(c, s, sampled).Ok?
    ensures Staged(ReservePromotion(c, s, sampled).value)
  {}

  lemma InvalidationIsStaged(c: Control, cohort: Cohort)
    requires Staged(c) && InvalidateAudit(c, cohort).Ok?
    ensures Staged(InvalidateAudit(c, cohort).value)
  {}

  lemma StepIsStaged(c: Control, op: Op)
    requires Staged(c)
    ensures Staged(Next(c, op))
  {
    hide Authorize, ReservePromotion, InvalidateAudit, CompleteAudit, OpenBreaker;
    match op
    case AuthorizeOp(i, percentage) =>
      if Authorize(c, i, percentage).Ok? {
        AuthorizationIsStaged(c, i, percentage);
      }
    case PromoteOp(s, sampled) =>
      if ReservePromotion(c, s, sampled).Ok? {
        PromotionIsStaged(c, s, sampled);
      }
    case CompleteOp(cohort, critical) =>
      if CompleteAudit(c, cohort, critical).Ok? {
        CompletionIsStaged(c, cohort, critical);
      }
    case InvalidateOp(cohort) =>
      if InvalidateAudit(c, cohort).Ok? {
        InvalidationIsStaged(c, cohort);
      }
    case CorrectOp =>
      var n := c.row.counters;
      OpeningIsStaged(c.(row := c.row.(counters := n.(correctedCriticals := n.correctedCriticals + 1))));
    case _ =>
  }

  lemma {:induction false} RunIsStaged(ops: seq<Op>)
    ensures Staged(Run(DEFAULT, ops))
    decreases |ops|
  {
    hide Staged;
    if ops == [] {
      DefaultIsStaged();
    } else {
      RunIsStaged(ops[..|ops| - 1]);
      StepIsStaged(Run(DEFAULT, ops[..|ops| - 1]), ops[|ops| - 1]);
    }
  }

  lemma DefaultIsStaged()
    ensures Staged(DEFAULT)
  {}

  /** In every reachable state a pending audit can be completed: its mandatory counter is there. */
  lemma PendingAuditsCanBeCompleted(ops: seq<Op>, cohort: Cohort, critical: bool)
    requires Pending(Run(DEFAULT, ops).audits, cohort) > 0
    ensures CompleteAudit(Run(DEFAULT, ops), cohort, critical).Ok?
  {
    RunIsStaged(ops);
    hide Run, OpenBreaker;
  }

  predicate Tainted(r: Row) { r.counters.auditsCritical > 0 || r.counters.correctedCriticals > 0 }

  lemma StepKeepsTaint(c: Control, op: Op)
    requires Tainted(c.row)
    ensures Tainted(Next(c, op).row)
  {
    hide RequireTransition;
  }

  lemma {:induction false} RunKeepsTaint(c: Control, ops: seq<Op>)
    requires Tainted(c.row)
    ensures Tainted(Run(c, ops).row)
    decreases |ops|
  {
    hide Next, Tainted;
    if ops != [] {
      RunKeepsTaint(c, ops[..|ops| - 1]);
      StepKeepsTaint(Run(c, ops[..|ops| - 1]), ops[|ops| - 1]);
    }
  }

  /** After one critical audit or correction the rollout of this policy is over: over every further
      run, breaker closings included, the percentage is zero and no authorization is granted. */
  lemma CriticalFindingIsFinal(before: seq<Op>, after: seq<Op>, i: Input, percentage: nat)
    requires Tainted(Run(DEFAULT, before).row)
    ensures Run(DEFAULT, before + after).row.percentage == 0
    ensures Authorize(Run(DEFAULT, before + after), i, percentage).Err?
  {
    RunAppend(DEFAULT, before, after);
    RunKeepsTaint(Run(DEFAULT, before), after);
    RunIsStaged(before + after);
    var c := Run(DEFAULT, before + after);
    hide Run;
    if Authorize(c, i, percentage).Ok? {
      AuthorizationNeedsClosedBreaker(c, i, percentage);
    }
  }

  lemma {:induction false} RunAppend(c: Control, first: seq<Op>, more: seq<Op>)
    ensures Run(c, first + more) == Run(Run(c, first), more)
    decreases |more|
  {
    hide Next;
    if more == [] {
      assert first + more == first;
    } else {
      RunAppend(c, first, more[..|more| - 1]);
      assert (first + more)[..|first + more| - 1] == first + more[..|more| - 1];
    }
  }

  /** What the canary gate's comparison of selected with completed audits says in a reachable state:
      completed manual audits make up exactly for selected ones that are pending or were invalidated. */
  lemma SelectedEqualsCompletedIff(ops: seq<Op>)
    ensures var c := Run(DEFAULT, ops);
            c.row.counters.auditsSelected == c.row.counters.auditsCompleted
            <==> c.audits.manualCompleted == c.audits.selectedInvalidated + Pending(c.audits, FirstFifty) + Pending(c.audits, Sampled)
  {
    RunIsStaged(ops);
    hide Run;
  }

  /** So a full rollout is authorized on fifty confirmed mandatory audits with none pending, and, as
      long as nobody completed a manual audit, with no selected audit pending or ever invalidated. */
  lemma FullRolloutIsAudited(ops: seq<Op>, i: Input)
    requires Authorize(Run(DEFAULT, ops), i, 100).Ok?
    ensures var c := Run(DEFAULT, ops);
            && c.row.counters.confirmedMandatory == MANDATORY_AUDITS && Pending(c.audits, FirstFifty) == 0
            && (c.audits.manualCompleted == 0 ==> Pending(c.audits, Sampled) == 0 && c.audits.selectedInvalidated == 0)
  {
    RunIsStaged(ops);
    SelectedEqualsCompletedIff(ops);
    hide Run;
  }

  // ---- Versions

  /** The row but for what an invalidation changes. */
  function Versioned(r: Row): Row { r.(counters := r.counters.(pendingMandatory := 0, invalidated := 0)) }

  /** The log, epoch and generation move together, versions never go back, and an equal version means
      an equal row but for invalidated audits, which are not versioned. */
  lemma {:induction false} VersionPinsTheRow(c: Control, ops: seq<Op>)
    ensures var d := Run(c, ops);
            && c.log <= d.log && c.row.version <= d.row.version
            && d.row.epoch - c.row.epoch == |d.log| - |c.log| == d.row.generation - c.row.generation == d.row.lastSequence - c.row.lastSequence
            && (d.row.version == c.row.version ==> d.log == c.log && Versioned(d.row) == Versioned(c.row))
    decreases |ops|
  {
    hide RequireTransition;
    if ops != [] {
      VersionPinsTheRow(c, ops[..|ops| - 1]);
      StepAdvances(Run(c, ops[..|ops| - 1]), ops[|ops| - 1]);
      hide Next;
    }
  }

  lemma StepAdvances(c: Control, op: Op)
    ensures var d := Next(c, op);
            && c.log <= d.log && c.row.version <= d.row.version
            && d.row.epoch - c.row.epoch == |d.log| - |c.log| == d.row.generation - c.row.generation == d.row.lastSequence - c.row.lastSequence
            && (d.row.version == c.row.version ==> d.log == c.log && Versioned(d.row) == Versioned(c.row))
  {
    hide RequireTransition;
  }

  /** An operator's decision is carried out only if the row is still the one it was made on, but for
      invalidated audits; what else happened in between, it is refused. */
  lemma StaleDecisionsAreRefused(c: Control, between: seq<Op>, i: Input, percentage: nat, unresolved: bool)
    requires i.expectedVersion == c.row.version && Versioned(Run(c, between).row) != Versioned(c.row)
    ensures Authorize(Run(c, between), i, percentage).Err? && CloseBreaker(Run(c, between), i, unresolved).Err?
  {
    VersionPinsTheRow(c, between);
    hide Run;
  }

  // ---- What an operator's decision takes

  /** A stated reason and gate, a readable runtime key, and the version the operator saw. */
  predicate InputCounts(c: Control, i: Input) {
    1 <= |i.reason| <= 500 && 1 <= |i.gate| <= 120 && i.runtimeReady && c.row.version == i.expectedVersion
  }

  lemma SupportedShare(c: Counters)
    requires c.shadowCompleted > 0
    ensures ShadowPrecision(c) >= 9_900 <==> 100 * c.shadowSupported >= 99 * c.shadowCompleted
  {
    var q := c.shadowSupported * 10_000 / c.shadowCompleted;
    QuotientAtLeast(c.shadowSupported * 10_000, c.shadowCompleted, 9_900);
  }

  lemma QuotientAtLeast(a: nat, b: nat, k: nat)
    requires b > 0
    ensures a / b >= k <==> a >= k * b
  {
    var q, r := a / b, a % b;
    assert a == q * b + r && r < b;
    if q >= k {
      assert q * b >= k * b;
    } else {
      assert (q + 1) * b <= k * b;
    }
  }

  /** Stage 10 takes five hundred shadow comparisons, ninety-nine in a hundred supported, no critical
      finding and a closed breaker; nothing else is asked and nothing less is enough. */
  lemma CanaryIsAuthorizedIff(c: Control, i: Input)
    ensures var n := c.row.counters;
            Authorize(c, i, 10).Ok? <==>
            && InputCounts(c, i) && c.row.percentage == 0
            && n.shadowCompleted >= 500 && 100 * n.shadowSupported >= 99 * n.shadowCompleted
            && n.auditsCritical == 0 && n.correctedCriticals == 0 && !c.row.breakerOpen
  {
    if c.row.counters.shadowCompleted > 0 {
      SupportedShare(c.row.counters);
    }
    hide ShadowPrecision, CanaryGatePassed;
  }

  /** Stage 100 takes stage 10, five hundred promotions, all fifty mandatory audits confirmed and none
      pending, as many audits completed as selected, no critical finding and a closed breaker. */
  lemma FullRolloutIsAuthorizedIff(c: Control, i: Input)
    ensures var n := c.row.counters;
            Authorize(c, i, 100).Ok? <==>
            && InputCounts(c, i) && c.row.percentage == 10
            && n.promotions >= 500 && n.confirmedMandatory == 50 && n.pendingMandatory == 0
            && n.auditsSelected == n.auditsCompleted && n.auditsCompleted > 0
            && n.auditsCritical == 0 && n.correctedCriticals == 0 && !c.row.breakerOpen
  {
    hide ShadowGatePassed;
  }

  lemma NoOtherStages(c: Control, i: Input, percentage: nat)
    ensures Authorize(c, i, percentage).Ok? ==>
            && (percentage == 10 || percentage == 100)
            && Authorize(c, i, percentage).value.row
               == c.row.(version := c.row.version + 1, epoch := c.row.epoch + 1, percentage := percentage,
                         generation := c.row.generation + 1, gate := i.gate, lastSequence := c.row.lastSequence + 1)
  {
    hide ShadowGatePassed, CanaryGatePassed;
  }

  /** Closing takes an open breaker, no audit pending in any cohort, no corrected finding and nothing
      unresolved; it returns to stage 0. */
  lemma ClosingIff(c: Control, i: Input, unresolved: bool)
    ensures CloseBreaker(c, i, unresolved).Ok? <==>
            && InputCounts(c, i) && c.row.breakerOpen && c.row.counters.correctedCriticals == 0
            && (forall cohort :: Pending(c.audits, cohort) == 0) && !unresolved
    ensures CloseBreaker(c, i, unresolved).Ok? ==>
            CloseBreaker(c, i, unresolved).value.row
            == c.row.(version := c.row.version + 1, epoch := c.row.epoch + 1, percentage := 0, breakerOpen := false,
                      generation := c.row.generation + 1, gate := i.gate, lastSequence := c.row.lastSequence + 1)
  {
    forall cohort ensures Pending(c.audits, cohort) <= Pending(c.audits, FirstFifty) + Pending(c.audits, Sampled) + Pending(c.audits, Manual) {
      CohortsAreThree(c.audits, cohort);
    }
    hide Pending;
  }

  lemma CohortsAreThree(a: Audits, cohort: Cohort)
    ensures Pending(a, cohort) <= Pending(a, FirstFifty) + Pending(a, Sampled) + Pending(a, Manual)
  {
    match cohort
    case FirstFifty =>
    case Sampled =>
    case Manual =>
  }

  /** A promotion is reserved only on the control it was selected under, with a mandatory slot left
      while fewer than fifty are confirmed; it is audited while they are, and by sampling after. */
  lemma PromotionIsReservedIff(c: Control, s: Selection, sampled: bool)
    ensures var n := c.row.counters;
            ReservePromotion(c, s, sampled).Ok? <==>
            && !c.row.breakerOpen && c.row.epoch == s.epoch && c.row.generation == s.generation && s.authorized <= c.row.percentage
            && (n.confirmedMandatory < 50 ==> n.confirmedMandatory + n.pendingMandatory < 50)
    ensures var n := c.row.counters; var r := ReservePromotion(c, s, sampled);
            var mandatory := n.confirmedMandatory < 50;
            var selected := mandatory || sampled;
            r.Ok? ==>
              && r.value.log == c.log
              && r.value.row == c.row.(version := c.row.version + 1, counters :=
                   n.(promotions := n.promotions + 1, auditsSelected := n.auditsSelected + (if selected then 1 else 0),
                      pendingMandatory := n.pendingMandatory + if mandatory then 1 else 0))
              && Pending(r.value.audits, FirstFifty) == Pending(c.audits, FirstFifty) + (if mandatory then 1 else 0)
              && Pending(r.value.audits, Sampled) == Pending(c.audits, Sampled) + (if selected && !mandatory then 1 else 0)
              && Pending(r.value.audits, Manual) == Pending(c.audits, Manual)
  {}

  /** A manual audit only adds one pending audit to its own cohort. */
  lemma ManualAuditIsAdded(c: Control, cohort: Cohort)
    ensures var c' := Next(c, RequestManualOp);
            c'.row == c.row && c'.log == c.log && Pending(c'.audits, cohort) == Pending(c.audits, cohort) + if cohort == Manual then 1 else 0
  {}

  // ---- The counters count

  /** How often something happened in the run. */
  ghost function Times(ops: seq<Op>, happens: (Control, Op) -> bool): nat {
    if ops == [] then 0
    else Times(ops[..|ops| - 1], happens) + if happens(Run(DEFAULT, ops[..|ops| - 1]), ops[|ops| - 1]) then 1 else 0
  }

  predicate Compared(c: Control, op: Op) { op.CompareOp? }

  predicate Supported(c: Control, op: Op) { op == CompareOp(true) }

  predicate Promoted(c: Control, op: Op) { op.PromoteOp? && ReservePromotion(c, op.selection, op.sampled).Ok? }

  predicate Audited(c: Control, op: Op) { op.CompleteOp? && Pending(c.audits, op.cohort) > 0 }

  predicate FoundCritical(c: Control, op: Op) { Audited(c, op) && op.critical }

  predicate ConfirmedOneOfFifty(c: Control, op: Op) { Audited(c, op) && op.cohort == FirstFifty && !op.critical }

  predicate Corrected(c: Control, op: Op) { op == CorrectOp }

  predicate LostSource(c: Control, op: Op) { op.InvalidateOp? && Pending(c.audits, op.cohort) > 0 }

  /** The counters one step on. */
  ghost predicate CountsStep(n: Counters, n': Counters, c: Control, op: Op) {
    && n'.shadowCompleted == n.shadowCompleted + (if Compared(c, op) then 1 else 0)
    && n'.shadowSupported == n.shadowSupported + (if Supported(c, op) then 1 else 0)
    && n'.promotions == n.promotions + (if Promoted(c, op) then 1 else 0)
    && n'.auditsCompleted == n.auditsCompleted + (if Audited(c, op) then 1 else 0)
    && n'.auditsCritical == n.auditsCritical + (if FoundCritical(c, op) then 1 else 0)
    && n'.confirmedMandatory == n.confirmedMandatory + (if ConfirmedOneOfFifty(c, op) then 1 else 0)
    && n'.correctedCriticals == n.correctedCriticals + (if Corrected(c, op) then 1 else 0)
    && n'.invalidated == n.invalidated + (if LostSource(c, op) then 1 else 0)
  }

  lemma DecisionsDoNotCount(c: Control, i: Input, percentage: nat, unresolved: bool)
    ensures Taken(c, Authorize(c, i, percentage)).row.counters == c.row.counters
    ensures Taken(c, CloseBreaker(c, i, unresolved)).row.counters == c.row.counters
    ensures OpenBreaker(c).row.counters == c.row.counters
  {
    hide RequireTransition;
  }

  lemma AuditCounts(c: Control, cohort: Cohort, critical: bool)
    requires Staged(c)
    ensures var n := c.row.counters; var c' := CompleteAudit(c, cohort, critical);
            && (c'.Ok? <==> Pending(c.audits, cohort) > 0)
            && (c'.Ok? ==>
                c'.value.row.counters
                == n.(pendingMandatory := n.pendingMandatory - (if cohort == FirstFifty then 1 else 0),
                      auditsCompleted := n.auditsCompleted + 1, auditsCritical := n.auditsCritical + (if critical then 1 else 0),
                      confirmedMandatory := n.confirmedMandatory + (if cohort == FirstFifty && !critical then 1 else 0)))
  {}

  lemma PromotionCounts(c: Control, s: Selection, sampled: bool)
    requires ReservePromotion(c, s, sampled).Ok?
    ensures var n, n' := c.row.counters, ReservePromotion(c, s, sampled).value.row.counters;
            n' == n.(promotions := n.promotions + 1, auditsSelected := n'.auditsSelected, pendingMandatory := n'.pendingMandatory)
  {}

  lemma LossCounts(c: Control, cohort: Cohort)
    requires Staged(c)
    ensures var n := c.row.counters; var c' := InvalidateAudit(c, cohort);
            && (c'.Ok? <==> Pending(c.audits, cohort) > 0)
            && (c'.Ok? ==> c'.value.row.counters == n.(pendingMandatory := c'.value.row.counters.pendingMandatory, invalidated := n.invalidated + 1))
  {}

  lemma StepCounts(c: Control, op: Op)
    requires Staged(c)
    ensures CountsStep(c.row.counters, Next(c, op).row.counters, c, op)
  {
    hide Authorize, CloseBreaker, OpenBreaker, CompleteAudit, ReservePromotion, InvalidateAudit, Staged;
    match op
    case AuthorizeOp(i, percentage) => DecisionsDoNotCount(c, i, percentage, false);
    case CloseOp(i, unresolved) => DecisionsDoNotCount(c, i, 0, unresolved);
    case CompleteOp(cohort, critical) => AuditCounts(c, cohort, critical);
    case InvalidateOp(cohort) => LossCounts(c, cohort);
    case PromoteOp(s, sampled) =>
      if ReservePromotion(c, s, sampled).Ok? {
        PromotionCounts(c, s, sampled);
      }
    case CorrectOp =>
      var n := c.row.counters;
      DecisionsDoNotCount(c.(row := c.row.(counters := n.(correctedCriticals := n.correctedCriticals + 1))), Input(0, "", "", false), 0, false);
    case _ =>
  }

  /** Over every run each counter is the number of times its event happened. */
  lemma {:induction false} CountersCountTheRun(ops: seq<Op>)
    ensures var n := Run(DEFAULT, ops).row.counters;
            && n.shadowCompleted == Times(ops, Compared) && n.shadowSupported == Times(ops, Supported)
            && n.promotions == Times(ops, Promoted) && n.auditsCompleted == Times(ops, Audited)
            && n.auditsCritical == Times(ops, FoundCritical) && n.confirmedMandatory == Times(ops, ConfirmedOneOfFifty)
            && n.correctedCriticals == Times(ops, Corrected) && n.invalidated == Times(ops, LostSource)
    decreases |ops|
  {
    hide Next, Compared, Supported, Promoted, Audited, FoundCritical, ConfirmedOneOfFifty, Corrected, LostSource, Staged;
    if ops != [] {
      CountersCountTheRun(ops[..|ops| - 1]);
      RunIsStaged(ops[..|ops| - 1]);
      StepCounts(Run(DEFAULT, ops[..|ops| - 1]), ops[|ops| - 1]);
    }
  }

  /** So stage 10 is earned: five hundred comparisons were made in the run, at least ninety-nine in a
      hundred of them supported, and no audit ever found or was corrected to anything critical. */
  lemma CanaryIsEarned(ops: seq<Op>, i: Input)
    requires Authorize(Run(DEFAULT, ops), i, 10).Ok?
    ensures Times(ops, Compared) >= 500 && 100 * Times(ops, Supported) >= 99 * Times(ops, Compared)
    ensures Times(ops, FoundCritical) == 0 && Times(ops, Corrected) == 0
  {
    hide Run, Authorize, Times;
    CanaryIsAuthorizedIff(Run(DEFAULT, ops), i);
    CountersCountTheRun(ops);
  }

  /** And stage 100: five hundred promotions, and fifty mandatory audits confirmed. */
  lemma FullRolloutIsEarned(ops: seq<Op>, i: Input)
    requires Authorize(Run(DEFAULT, ops), i, 100).Ok?
    ensures Times(ops, Promoted) >= 500 && Times(ops, ConfirmedOneOfFifty) == 50
    ensures Times(ops, FoundCritical) == 0 && Times(ops, Corrected) == 0
  {
    hide Run, Authorize, Times;
    FullRolloutIsAuthorizedIff(Run(DEFAULT, ops), i);
    CountersCountTheRun(ops);
  }
}
