/** The review log's file: processes that lock, read, write a temporary file and rename it, with
    process crashes and power cuts between any two steps. */
module ReviewLogFile {
  import opened Outcomes
  import opened ReviewLog

  /** What a file holds: `Torn` bytes may be anything. */
  datatype Content = Torn | Whole(log: Log)

  datatype Request = CreateLog(review: Review) | Update(op: Op)

  /** Where a process stands. `next` is the log it will store; `disk` what its temporary file would
      hold after a power cut. */
  datatype Phase =
    | Entering
    | Opened
    | Locked
    | Ready(next: Log)
    | Written(next: Log, disk: Content)
    | Replaced(next: Log)

  datatype Process = Process(request: Request, phase: Phase)

  /** `durable` is the named file as a power cut at the latest flush would leave it; `pending` are the
      renames since, oldest first. `outer` holds the lock that callers take around a creation. */
  datatype System = System(
    durable: Option<Content>,
    pending: seq<Content>,
    lockFile: bool,
    outer: Option<nat>,
    holder: Option<nat>,
    processes: map<nat, Process>,
    done: set<Request>)

  const START := System(None, [], false, None, None, map[], {})

  datatype Event =
    | BeginCreate(p: nat, review: Review)
    | BeginUpdate(p: nat, op: Op)
    | Open(p: nat)
    | TakeLock(p: nat)
    | Transform(p: nat)
    | WriteTemporary(p: nat)
    | SyncTemporary(p: nat)
    | Rename(p: nat)
    | FlushDirectory(p: nat)
    | Crash(p: nat)
    | PowerCut(survivor: nat, keepLockFile: bool)

  /** The file as the processes see it. */
  function Visible(s: System): Option<Content> {
    if s.pending == [] then s.durable else Some(s.pending[|s.pending| - 1])
  }

  function Move(s: System, p: nat, phase: Phase): System
    requires p in s.processes
  {
    s.(processes := s.processes[p := s.processes[p].(phase := phase)])
  }

  /** A process leaves: it ends, fails, or crashes. Its locks go with it, its temporary file stays. */
  function Leave(s: System, p: nat): System {
    s.(processes := s.processes - {p},
       outer := if s.outer == Some(p) then None else s.outer,
       holder := if s.holder == Some(p) then None else s.holder)
  }

  function Transformed(visible: Option<Content>, request: Request): Result<Log> {
    match request
    case CreateLog(r) => Ok([NewEntry([], "reserved", r)])
    case Update(op) =>
      if visible.Some? && visible.value.Whole? then Perform(visible.value.log, op) else Err("authority envelope is invalid")
  }

  function Renamed(s: System, p: nat, f: Phase): System
    requires p in s.processes && f.Written?
  {
    Move(s.(pending := s.pending + [f.disk]), p, Replaced(f.next))
  }

  function Flushed(s: System, p: nat): System
    requires p in s.processes
  {
    Leave(s, p).(durable := Visible(s), pending := [], done := s.done + {s.processes[p].request})
  }

  function PhaseStep(s: System, p: nat, e: Event): System
    requires p in s.processes
  {
    var x := s.processes[p];
    var f := x.phase;
    if e.Open? && f.Entering? then
      if Visible(s).Some? then Leave(s, p) else Move(s.(lockFile := true), p, Opened)
    else if e.TakeLock? && f.Opened? && s.holder.None? then Move(s.(holder := Some(p)), p, Locked)
    else if e.Transform? && f.Locked? then
      var next := Transformed(Visible(s), x.request);
      if next.Ok? then Move(s, p, Ready(next.value)) else Leave(s, p)
    else if e.WriteTemporary? && f.Ready? then Move(s, p, Written(f.next, Torn))
    else if e.SyncTemporary? && f.Written? then Move(s, p, Written(f.next, Whole(f.next)))
    else if e.Rename? && f.Written? && f.disk == Whole(f.next) then Renamed(s, p, f)
    else if e.FlushDirectory? && f.Replaced? then Flushed(s, p)
    else s
  }

  /** `guarded` says whether creations run under their callers' outer lock. */
  function After(s: System, e: Event, guarded: bool): System {
    match e
    case BeginCreate(p, r) =>
      if p in s.processes || !Verified(r) || Visible(s).Some? || s.lockFile || (guarded && s.outer.Some?) then s
      else s.(processes := s.processes[p := Process(CreateLog(r), Entering)], outer := if guarded then Some(p) else s.outer)
    case BeginUpdate(p, op) =>
      if p in s.processes || !Verified(op.review) || Visible(s).None? || !s.lockFile then s
      else s.(processes := s.processes[p := Process(Update(op), Opened)])
    case Crash(p) => Leave(s, p)
    case PowerCut(k, keepLockFile) =>
      s.(durable := if k < |s.pending| then Some(s.pending[k]) else s.durable, pending := [],
         lockFile := s.lockFile && keepLockFile, outer := None, holder := None, processes := map[])
    case _ => if e.p in s.processes then PhaseStep(s, e.p, e) else s
  }

  function Run(s: System, events: seq<Event>, guarded: bool): System {
    if events == [] then s
    else After(Run(s, events[..|events| - 1], guarded), events[|events| - 1], guarded)
  }

  // ---- The invariant

  predicate GoodContent(c: Content) { c.Whole? && Accepts(c.log) }

  predicate Extends(older: Option<Content>, newer: Option<Content>) {
    older.Some? ==> newer.Some? && GoodContent(older.value) && GoodContent(newer.value) && older.value.log <= newer.value.log
  }

  predicate FilesOk(s: System) {
    && (s.durable.Some? ==> GoodContent(s.durable.value))
    && forall i :: 0 <= i < |s.pending| ==> GoodContent(s.pending[i]) && Extends(s.durable, Some(s.pending[i]))
  }

  /** The entry a finished request left in the log. */
  predicate Recorded(log: Log, request: Request) {
    match request
    case CreateLog(r) => exists i :: 0 <= i < |log| && Is(log[i], "reserved", r.nonce) && log[i].digest == r.digest
    case Update(ReserveOp(r)) => exists i :: 0 <= i < |log| && Is(log[i], "reserved", r.nonce) && log[i].digest == r.digest
    case Update(ConsumeOp(r)) => exists i :: 0 <= i < |log| && Is(log[i], "consumed", r.nonce) && log[i].digest == r.digest
  }

  function ReviewOf(request: Request): Review {
    match request
    case CreateLog(r) => r
    case Update(op) => op.review
  }

  predicate ProcessOk(s: System, p: nat)
    requires p in s.processes
  {
    var x := s.processes[p];
    && Verified(ReviewOf(x.request))
    && (x.phase.Locked? || x.phase.Ready? || x.phase.Written? || x.phase.Replaced? ==> s.holder == Some(p))
    && (x.request.CreateLog? ==> s.outer == Some(p))
    && (x.request.CreateLog? && !x.phase.Replaced? ==> Visible(s) == None)
    && (x.request.Update? ==> Visible(s).Some? && !x.phase.Entering?)
    && (x.phase.Ready? || x.phase.Written? || x.phase.Replaced? ==>
      && Accepts(x.phase.next) && Recorded(x.phase.next, x.request)
      && Extends(Visible(s), Some(Whole(x.phase.next))))
    && (x.phase.Replaced? ==> Visible(s) == Some(Whole(x.phase.next)))
  }

  predicate Inv(s: System) {
    && FilesOk(s)
    && (forall p :: p in s.processes ==> ProcessOk(s, p))
    && (s.outer.Some? ==> s.outer.value in s.processes)
    && (s.holder.Some? ==> s.holder.value in s.processes)
    && (forall x :: x in s.done ==> s.durable.Some? && s.durable.value.Whole? && Recorded(s.durable.value.log, x))
  }

  lemma TransformedIsGood(visible: Option<Content>, request: Request)
    requires visible.Some? ==> GoodContent(visible.value)
    requires Verified(ReviewOf(request)) && (request.CreateLog? ==> visible == None)
    requires Transformed(visible, request).Ok?
    ensures var next := Transformed(visible, request).value;
            Accepts(next) && Recorded(next, request) && Extends(visible, Some(Whole(next)))
  {
    var next := Transformed(visible, request).value;
    match request
    case CreateLog(r) =>
      assert Fits(next, 0) && Is(next[0], "reserved", r.nonce);
    case Update(op) =>
      var log := visible.value.log;
      PerformKeepsAccepted(log, op);
      if next != log {
        assert Is(next[|log|], if op.ReserveOp? then "reserved" else "consumed", op.review.nonce);
      } else {
        AlreadyReserved(log, op.review);
      }
  }

  lemma AlreadyReserved(log: Log, r: Review)
    requires Accepts(log) && Reserve(log, r) == Ok(log)
    ensures exists i :: 0 <= i < |log| && Is(log[i], "reserved", r.nonce) && log[i].digest == r.digest
  {
    var m := Matching(log, r.nonce);
    assert m[0] in m;
    var i :| 0 <= i < |log| && log[i] == m[0];
    assert Fits(log, i);
    assert Is(log[i], "reserved", r.nonce);
  }

  lemma RecordedInLonger(log: Log, longer: Log, request: Request)
    requires Recorded(log, request) && log <= longer
    ensures Recorded(longer, request)
  {}

  /** The durable file is only ever replaced by an extension of itself. */
  lemma StepExtends(s: System, e: Event)
    requires Inv(s)
    ensures Extends(s.durable, After(s, e, true).durable)
    ensures s.done <= After(s, e, true).done
  {
    hide GoodContent, Accepts, Recorded, Transformed, Verified;
  }

  lemma LeaveKeepsInv(s: System, p: nat)
    requires Inv(s)
    ensures Inv(Leave(s, p))
  {
    hide Accepts, Recorded, GoodContent, Verified, Extends;
    var s' := Leave(s, p);
    assert Visible(s') == Visible(s);
    forall q | q in s'.processes ensures ProcessOk(s', q) {
      assert ProcessOk(s, q);
    }
  }

  lemma MoveKeepsInv(s: System, p: nat, lockFile: bool, holder: Option<nat>, phase: Phase)
    requires Inv(s) && p in s.processes
    requires holder == s.holder || (s.holder == None && holder == Some(p))
    requires ProcessOk(Move(s.(lockFile := lockFile, holder := holder), p, phase), p)
    ensures Inv(Move(s.(lockFile := lockFile, holder := holder), p, phase))
  {
    hide Accepts, Recorded, GoodContent, Verified, Extends;
    var s' := Move(s.(lockFile := lockFile, holder := holder), p, phase);
    assert Visible(s') == Visible(s);
    forall q | q in s'.processes ensures ProcessOk(s', q) {
      assert q != p ==> ProcessOk(s, q);
    }
  }

  lemma RenameKeepsInv(s: System, p: nat)
    requires Inv(s) && p in s.processes && s.processes[p].phase.Written?
    requires s.processes[p].phase.disk == Whole(s.processes[p].phase.next)
    ensures Inv(Renamed(s, p, s.processes[p].phase))
  {
    hide Accepts, Recorded, Verified;
    var s' := Renamed(s, p, s.processes[p].phase);
    var next := s.processes[p].phase.next;
    assert ProcessOk(s, p);
    assert GoodContent(Whole(next)) && Extends(s.durable, Some(Whole(next)));
    hide GoodContent, Extends;
    forall q | q in s'.processes ensures ProcessOk(s', q) {
      assert ProcessOk(s, q);
    }
  }

  lemma FlushKeepsInv(s: System, p: nat)
    requires Inv(s) && p in s.processes && s.processes[p].phase.Replaced?
    ensures Inv(Flushed(s, p))
  {
    hide Accepts, Verified;
    var s' := Flushed(s, p);
    assert ProcessOk(s, p);
    assert Visible(s') == Visible(s);
    forall q | q in s'.processes ensures ProcessOk(s', q) {
      assert ProcessOk(s, q);
    }
    forall x | x in s'.done ensures s'.durable.Some? && s'.durable.value.Whole? && Recorded(s'.durable.value.log, x) {
      if x in s.done {
        RecordedInLonger(s.durable.value.log, s'.durable.value.log, x);
      }
    }
  }

  lemma TransformKeepsInv(s: System, p: nat)
    requires Inv(s) && p in s.processes && s.processes[p].phase.Locked?
    ensures Inv(PhaseStep(s, p, Transform(p)))
  {
    hide Accepts, Recorded, Verified, Transformed;
    var x := s.processes[p];
    assert ProcessOk(s, p);
    if Transformed(Visible(s), x.request).Ok? {
      TransformedIsGood(Visible(s), x.request);
      MoveKeepsInv(s, p, s.lockFile, s.holder, Ready(Transformed(Visible(s), x.request).value));
    } else {
      LeaveKeepsInv(s, p);
    }
  }

  lemma OpenKeepsInv(s: System, p: nat)
    requires Inv(s) && p in s.processes && s.processes[p].phase.Entering? && Visible(s) == None
    ensures Inv(Move(s.(lockFile := true), p, Opened))
  {}

  lemma TakeLockKeepsInv(s: System, p: nat)
    requires Inv(s) && p in s.processes && s.processes[p].phase.Opened? && s.holder == None
    ensures Inv(Move(s.(holder := Some(p)), p, Locked))
  {
    assert ProcessOk(s, p);
    hide Inv, Verified;
    MoveKeepsInv(s, p, s.lockFile, Some(p), Locked);
  }

  lemma WriteKeepsInv(s: System, p: nat, next: Log, disk: Content)
    requires Inv(s) && p in s.processes
    requires s.processes[p].phase == Ready(next) || (s.processes[p].phase.Written? && s.processes[p].phase.next == next)
    ensures Inv(Move(s, p, Written(next, disk)))
  {
    assert ProcessOk(s, p);
    hide Inv, Verified, Accepts, Recorded, Extends;
    MoveKeepsInv(s, p, s.lockFile, s.holder, Written(next, disk));
  }

  lemma PhaseKeepsInv(s: System, p: nat, e: Event)
    requires Inv(s) && p in s.processes
    ensures Inv(PhaseStep(s, p, e))
  {
    hide Inv, Transformed, Renamed, Flushed, Leave, Move, Visible;
    var f := s.processes[p].phase;
    if e.Open? && f.Entering? {
      if Visible(s).Some? { LeaveKeepsInv(s, p); } else { OpenKeepsInv(s, p); }
    } else if e.TakeLock? && f.Opened? && s.holder.None? {
      TakeLockKeepsInv(s, p);
    } else if e.Transform? && f.Locked? {
      TransformKeepsInv(s, p);
    } else if e.WriteTemporary? && f.Ready? {
      WriteKeepsInv(s, p, f.next, Torn);
    } else if e.SyncTemporary? && f.Written? {
      WriteKeepsInv(s, p, f.next, Whole(f.next));
    } else if e.Rename? && f.Written? && f.disk == Whole(f.next) {
      RenameKeepsInv(s, p);
    } else if e.FlushDirectory? && f.Replaced? {
      FlushKeepsInv(s, p);
    }
  }

  lemma PowerCutKeepsInv(s: System, e: Event)
    requires Inv(s) && e.PowerCut?
    ensures Inv(After(s, e, true))
  {
    hide Accepts;
    var s' := After(s, e, true);
    forall x | x in s'.done ensures s'.durable.Some? && s'.durable.value.Whole? && Recorded(s'.durable.value.log, x) {
      RecordedInLonger(s.durable.value.log, s'.durable.value.log, x);
    }
  }

  lemma BeginKeepsInv(s: System, e: Event)
    requires Inv(s) && (e.BeginCreate? || e.BeginUpdate?)
    ensures Inv(After(s, e, true))
  {
    hide Accepts, Recorded, Verified, GoodContent, Extends;
    var s' := After(s, e, true);
    assert Visible(s') == Visible(s);
    forall q | q in s'.processes ensures ProcessOk(s', q) {
      assert q in s.processes ==> ProcessOk(s, q);
    }
  }

  lemma StepKeepsInv(s: System, e: Event)
    requires Inv(s)
    ensures Inv(After(s, e, true))
  {
    hide Inv;
    match e
    case BeginCreate(_, _) => BeginKeepsInv(s, e);
    case BeginUpdate(_, _) => BeginKeepsInv(s, e);
    case Crash(p) => LeaveKeepsInv(s, p);
    case PowerCut(_, _) => PowerCutKeepsInv(s, e);
    case _ => if e.p in s.processes { PhaseKeepsInv(s, e.p, e); }
  }

  lemma {:induction false} RunKeepsInv(events: seq<Event>)
    ensures Inv(Run(START, events, true))
    decreases |events|
  {
    if events != [] {
      RunKeepsInv(events[..|events| - 1]);
      StepKeepsInv(Run(START, events[..|events| - 1], true), events[|events| - 1]);
    }
  }

  // ---- What holds over every run

  /** Whatever crashes and power cuts happen, the file holds a whole accepted log, and every request
      that was reported done is recorded in it. */
  lemma FileIsAlwaysAValidLog(events: seq<Event>)
    ensures var s := Run(START, events, true);
            && (Visible(s).Some? ==> Visible(s).value.Whole? && Accepts(Visible(s).value.log))
            && (s.durable.Some? ==> s.durable.value.Whole? && Accepts(s.durable.value.log))
            && (forall x :: x in s.done ==> s.durable.Some? && Recorded(s.durable.value.log, x))
  {
    RunKeepsInv(events);
  }

  /** A later durable log extends every earlier one. */
  lemma {:induction false} DurableHistoryOnlyGrows(events: seq<Event>, k: nat)
    requires k <= |events|
    ensures Extends(Run(START, events[..k], true).durable, Run(START, events, true).durable)
    ensures Run(START, events[..k], true).done <= Run(START, events, true).done
    decreases |events|
  {
    hide Accepts, After, Recorded;
    RunKeepsInv(events[..k]);
    if k == |events| {
      assert events[..k] == events;
    } else {
      var shorter := events[..|events| - 1];
      assert shorter[..k] == events[..k];
      DurableHistoryOnlyGrows(shorter, k);
      RunKeepsInv(shorter);
      StepExtends(Run(START, shorter, true), events[|events| - 1]);
    }
  }

  /** A power cut leaves the file as it was at the latest flush or after one of the renames since;
      a process crash leaves it as it is. */
  lemma CrashLeavesOldOrNew(s: System, e: Event)
    requires Inv(s) && (e.Crash? || e.PowerCut?)
    ensures var s' := After(s, e, true);
            && (e.Crash? ==> Visible(s') == Visible(s) && s'.durable == s.durable)
            && (e.PowerCut? ==> Visible(s') == s.durable || exists i :: 0 <= i < |s.pending| && Visible(s') == Some(s.pending[i]))
            && (Visible(s').Some? ==> GoodContent(Visible(s').value))
            && Extends(s.durable, Visible(s'))
  {}

  /** Nobody consumes a nonce twice, and nobody consumes it with a digest it was not reserved with. */
  lemma DoneNoncesAgree(events: seq<Event>, a: Review, b: Review)
    requires var s := Run(START, events, true);
             Update(ConsumeOp(a)) in s.done
             && (Update(ConsumeOp(b)) in s.done || Update(ReserveOp(b)) in s.done || CreateLog(b) in s.done)
    requires a.nonce == b.nonce
    ensures a.digest == b.digest
  {
    var s := Run(START, events, true);
    FileIsAlwaysAValidLog(events);
    var log := s.durable.value.log;
    var i :| 0 <= i < |log| && Is(log[i], "consumed", a.nonce) && log[i].digest == a.digest;
    var event := if Update(ConsumeOp(b)) in s.done then "consumed" else "reserved";
    var j :| 0 <= j < |log| && Is(log[j], event, b.nonce) && log[j].digest == b.digest;
    if i != j {
      NonceHistory(log, if i < j then i else j, if i < j then i else j, if i < j then j else i);
    }
  }

  lemma {:induction false} RunAppend(s: System, first: seq<Event>, more: seq<Event>, guarded: bool)
    ensures Run(s, first + more, guarded) == Run(Run(s, first, guarded), more, guarded)
    decreases |more|
  {
    if more == [] {
      assert first + more == first;
    } else {
      RunAppend(s, first, more[..|more| - 1], guarded);
      assert (first + more)[..|first + more| - 1] == first + more[..|more| - 1];
    }
  }

  lemma RunOne(s: System, e: Event, more: seq<Event>, guarded: bool)
    ensures Run(s, [e] + more, guarded) == Run(After(s, e, guarded), more, guarded)
  {
    RunAppend(s, [e], more, guarded);
    assert [e][..0] == [];
    assert Run(s, [e], guarded) == After(Run(s, [], guarded), e, guarded);
  }

  function Prepare(p: nat): seq<Event> { [TakeLock(p)] + ([Transform(p)] + ([WriteTemporary(p)] + [])) }

  function Publish(p: nat): seq<Event> { [SyncTemporary(p)] + ([Rename(p)] + ([FlushDirectory(p)] + [])) }

  function StoreEvents(p: nat): seq<Event> { Prepare(p) + Publish(p) }

  lemma PrepareStore(s: System, p: nat, request: Request, next: Log, guarded: bool)
    requires p in s.processes && s.processes[p] == Process(request, Opened) && s.holder == None
    requires Transformed(Visible(s), request) == Ok(next)
    ensures Run(s, Prepare(p), guarded) == Move(s.(holder := Some(p)), p, Written(next, Torn))
  {
    hide Transformed;
    var s1 := After(s, TakeLock(p), guarded);
    var s2 := After(s1, Transform(p), guarded);
    var s3 := After(s2, WriteTemporary(p), guarded);
    assert s1 == Move(s.(holder := Some(p)), p, Locked);
    assert s2 == Move(s1, p, Ready(next));
    assert s3 == Move(s2, p, Written(next, Torn));
    assert Run(s3, [], guarded) == s3;
    hide Run, After;
    RunOne(s, TakeLock(p), [Transform(p)] + ([WriteTemporary(p)] + []), guarded);
    RunOne(s1, Transform(p), [WriteTemporary(p)] + [], guarded);
    RunOne(s2, WriteTemporary(p), [], guarded);
  }

  lemma PublishStore(s: System, p: nat, request: Request, next: Log, guarded: bool)
    requires p in s.processes && s.holder == Some(p)
    requires s.processes[p] == Process(request, Written(next, Torn))
    ensures var s' := Run(s, Publish(p), guarded);
            && s'.durable == Some(Whole(next)) && s'.pending == [] && s'.lockFile == s.lockFile
            && s'.done == s.done + {request} && s'.processes == s.processes - {p} && s'.holder == None
  {
    var s1 := After(s, SyncTemporary(p), guarded);
    var s2 := After(s1, Rename(p), guarded);
    RunOne(s, SyncTemporary(p), [Rename(p)] + ([FlushDirectory(p)] + []), guarded);
    RunOne(s1, Rename(p), [FlushDirectory(p)] + [], guarded);
    RunOne(s2, FlushDirectory(p), [], guarded);
  }

  lemma StoreCompletes(s: System, p: nat, request: Request, next: Log, guarded: bool)
    requires p in s.processes && s.processes[p] == Process(request, Opened) && s.holder == None
    requires Transformed(Visible(s), request) == Ok(next)
    ensures var s' := Run(s, StoreEvents(p), guarded);
            && s'.durable == Some(Whole(next)) && s'.pending == [] && s'.lockFile == s.lockFile
            && s'.done == s.done + {request} && s'.processes == s.processes - {p} && s'.holder == None
  {
    hide Run, After, Transformed;
    RunAppend(s, Prepare(p), Publish(p), guarded);
    PrepareStore(s, p, request, next, guarded);
    PublishStore(Run(s, Prepare(p), guarded), p, request, next, guarded);
  }

  /** An update that nobody disturbs is carried out: what the operation makes of the log is in the file
      as a power cut would leave it. */
  lemma UndisturbedUpdateIsStored(s: System, p: nat, op: Op, log: Log)
    requires Visible(s) == Some(Whole(log)) && s.lockFile && s.holder == None && p !in s.processes && Verified(op.review)
    requires Perform(log, op).Ok?
    ensures var s' := Run(s, [BeginUpdate(p, op)] + StoreEvents(p), true);
            && s'.durable == Some(Whole(Perform(log, op).value)) && s'.pending == []
            && Update(op) in s'.done && s'.processes == s.processes && s'.holder == None
  {
    hide Verified, Perform, StoreEvents, Run;
    var s1 := After(s, BeginUpdate(p, op), true);
    RunOne(s, BeginUpdate(p, op), StoreEvents(p), true);
    assert s1.processes - {p} == s.processes;
    hide After;
    StoreCompletes(s1, p, Update(op), Perform(log, op).value, true);
  }

  /** And so is a creation where there is no file, no lock file, and nobody else creating. */
  lemma UndisturbedCreationIsStored(s: System, p: nat, r: Review)
    requires Visible(s) == None && !s.lockFile && s.outer == None && s.holder == None && p !in s.processes && Verified(r)
    ensures var s' := Run(s, [BeginCreate(p, r)] + ([Open(p)] + StoreEvents(p)), true);
            && s'.durable == Some(Whole([NewEntry([], "reserved", r)])) && s'.pending == [] && s'.lockFile
            && CreateLog(r) in s'.done && s'.processes == s.processes && s'.holder == None
  {
    hide Verified, StoreEvents, Run;
    var s1 := After(s, BeginCreate(p, r), true);
    var s2 := After(s1, Open(p), true);
    RunOne(s, BeginCreate(p, r), [Open(p)] + StoreEvents(p), true);
    RunOne(s1, Open(p), StoreEvents(p), true);
    assert s2.processes - {p} == s.processes;
    hide After;
    StoreCompletes(s2, p, CreateLog(r), [NewEntry([], "reserved", r)], true);
  }

  lemma StoreCreation(s: System, p: nat, r: Review)
    requires p in s.processes && s.processes[p] == Process(CreateLog(r), Opened) && s.holder == None
    ensures var s' := Run(s, StoreEvents(p), false);
            && s'.durable == Some(Whole([NewEntry([], "reserved", r)]))
            && s'.done == s.done + {CreateLog(r)} && s'.processes == s.processes - {p} && s'.holder == None
  {
    hide Run;
    StoreCompletes(s, p, CreateLog(r), [NewEntry([], "reserved", r)], false);
  }

  function OpenBoth(a: Review, b: Review): seq<Event> {
    [BeginCreate(1, a)] + ([BeginCreate(2, b)] + ([Open(1)] + ([Open(2)] + [])))
  }

  lemma BothOpen(a: Review, b: Review)
    requires Verified(a) && Verified(b)
    ensures var s := Run(START, OpenBoth(a, b), false);
            && s.processes == map[1 := Process(CreateLog(a), Opened), 2 := Process(CreateLog(b), Opened)]
            && s.holder == None
  {
    hide Verified;
    var s1 := After(START, BeginCreate(1, a), false);
    var s2 := After(s1, BeginCreate(2, b), false);
    var s3 := After(s2, Open(1), false);
    var s4 := After(s3, Open(2), false);
    assert Run(s4, [], false) == s4;
    hide Run;
    RunOne(START, BeginCreate(1, a), [BeginCreate(2, b)] + ([Open(1)] + ([Open(2)] + [])), false);
    RunOne(s1, BeginCreate(2, b), [Open(1)] + ([Open(2)] + []), false);
    RunOne(s2, Open(1), [Open(2)] + [], false);
    RunOne(s3, Open(2), [], false);
  }

  function RacingCreations(a: Review, b: Review): seq<Event> {
    OpenBoth(a, b) + StoreEvents(1) + StoreEvents(2)
  }

  /** Without the outer lock two creations can both pass their checks before either renames, and the
      later one replaces the log the earlier one reported stored. */
  lemma RacingCreationsLoseALog(a: Review, b: Review)
    requires Verified(a) && Verified(b) && a.nonce != b.nonce
    ensures var s := Run(START, RacingCreations(a, b), false);
            && CreateLog(a) in s.done && s.durable == Some(Whole([NewEntry([], "reserved", b)]))
            && !Recorded(s.durable.value.log, CreateLog(a))
  {
    hide Verified, StoreEvents, OpenBoth, Run, After;
    RunAppend(START, OpenBoth(a, b) + StoreEvents(1), StoreEvents(2), false);
    RunAppend(START, OpenBoth(a, b), StoreEvents(1), false);
    BothOpen(a, b);
    var s := Run(START, OpenBoth(a, b), false);
    StoreCreation(s, 1, a);
    StoreCreation(Run(s, StoreEvents(1), false), 2, b);
  }
}
