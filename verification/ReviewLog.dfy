/** The provider-safety review log: an append-only list of reserved and consumed review nonces. */
module ReviewLog {
  import opened Outcomes

  /** What a JSON document can hold where a sequence number is expected. */
  datatype Scalar = Integer(value: int) | Boolean(flag: bool) | Decimal(number: real) | OtherScalar

  /** Equality of such a value with an integer, as the program's language compares them. */
  predicate EqualsInt(s: Scalar, n: int) {
    match s
    case Integer(v) => v == n
    case Boolean(flag) => n == (if flag then 1 else 0)
    case Decimal(x) => x == n as real
    case OtherScalar => false
  }

  datatype Entry = Entry(sequence: Scalar, event: string, nonce: string, digest: string) | Malformed
  type Log = seq<Entry>

  datatype Review = Review(nonce: string, digest: string)

  predicate LowerHex(c: char) { '0' <= c <= '9' || 'a' <= c <= 'f' }

  predicate HyphenAt(i: int) { i == 8 || i == 13 || i == 18 || i == 23 }

  /** The canonical text of a UUID other than the nil UUID. */
  predicate CanonicalNonce(n: string) {
    && |n| == 36
    && (forall i :: 0 <= i < 36 ==> if HyphenAt(i) then n[i] == '-' else LowerHex(n[i]))
    && exists i :: 0 <= i < 36 && n[i] != '-' && n[i] != '0'
  }

  predicate LowerDigest(d: string) { |d| == 64 && forall i :: 0 <= i < 64 ==> LowerHex(d[i]) }

  predicate Verified(r: Review) { CanonicalNonce(r.nonce) && LowerDigest(r.digest) }

  predicate WellFormed(e: Entry, index: nat) {
    && e.Entry? && EqualsInt(e.sequence, index)
    && (e.event == "reserved" || e.event == "consumed")
    && CanonicalNonce(e.nonce) && LowerDigest(e.digest)
  }

  predicate Is(e: Entry, event: string, nonce: string) { e.Entry? && e.event == event && e.nonce == nonce }

  /** Entry `i` may follow the entries before it. */
  predicate Fits(log: Log, i: nat)
    requires i < |log|
  {
    && WellFormed(log[i], i)
    && (log[i].event == "reserved" ==> forall j :: 0 <= j < i ==> !Is(log[j], "reserved", log[i].nonce))
    && (log[i].event == "consumed" ==>
      && (exists j :: 0 <= j < i && Is(log[j], "reserved", log[i].nonce) && log[j].digest == log[i].digest)
      && (forall j :: 0 <= j < i ==> !Is(log[j], "consumed", log[i].nonce)))
  }

  predicate Accepts(log: Log) { forall i :: 0 <= i < |log| ==> Fits(log, i) }

  /** What the validator has collected from the entries it has passed. */
  ghost predicate Collected(log: Log, n: nat, reservations: map<string, string>, consumed: set<string>)
    requires n <= |log|
  {
    && (forall x :: x in reservations <==> exists j :: 0 <= j < n && Is(log[j], "reserved", x))
    && (forall j :: 0 <= j < n && log[j].Entry? && log[j].event == "reserved" ==>
      log[j].nonce in reservations && reservations[log[j].nonce] == log[j].digest)
    && (forall x :: x in consumed <==> exists j :: 0 <= j < n && Is(log[j], "consumed", x))
  }

  /** The collections say of the next entry all that the entries before it say. */
  lemma CollectedDecides(log: Log, i: nat, reservations: map<string, string>, consumed: set<string>)
    requires i < |log| && WellFormed(log[i], i) && Collected(log, i, reservations, consumed)
    ensures var e := log[i];
            Fits(log, i) <==>
            (if e.event == "reserved" then e.nonce !in reservations
             else e.nonce in reservations && reservations[e.nonce] == e.digest && e.nonce !in consumed)
  {}

  method Validate(log: Log) returns (ok: bool)
    ensures ok <==> Accepts(log)
  {
    var reservations: map<string, string> := map[];
    var consumed: set<string> := {};
    for i := 0 to |log|
      invariant forall j :: 0 <= j < i ==> Fits(log, j)
      invariant Collected(log, i, reservations, consumed)
    {
      hide Fits;
      hide CanonicalNonce;
      hide LowerDigest;
      var e := log[i];
      if !WellFormed(e, i) {
        NotWellFormed(log, i);
        return false;
      }
      CollectedDecides(log, i, reservations, consumed);
      if e.event == "reserved" {
        if e.nonce in reservations {
          return false;
        }
        reservations := reservations[e.nonce := e.digest];
      } else if e.nonce !in reservations || reservations[e.nonce] != e.digest || e.nonce in consumed {
        return false;
      } else {
        consumed := consumed + {e.nonce};
      }
    }
    return true;
  }

  lemma NotWellFormed(log: Log, i: nat)
    requires i < |log| && !WellFormed(log[i], i)
    ensures !Fits(log, i)
  {}

  // ---- The operations

  function Matching(log: Log, nonce: string): (m: Log)
    ensures forall e :: e in m <==> e in log && e.Entry? && e.nonce == nonce
  {
    if log == [] then []
    else
      var rest := Matching(log[..|log| - 1], nonce);
      var last := log[|log| - 1];
      assert log == log[..|log| - 1] + [last];
      if last.Entry? && last.nonce == nonce then rest + [last] else rest
  }

  function NewEntry(log: Log, event: string, r: Review): Entry {
    Entry(Integer(|log|), event, r.nonce, r.digest)
  }

  function Reserve(log: Log, r: Review): Result<Log> {
    if !Accepts(log) then Err("review ledger is inconsistent")
    else
      var m := Matching(log, r.nonce);
      if m == [] then Ok(log + [NewEntry(log, "reserved", r)])
      else if m[0].digest != r.digest || (exists e :: e in m && e.event == "consumed") then Err("review nonce was already used")
      else Ok(log)
  }

  predicate Pending(log: Log, r: Review) {
    var m := Matching(log, r.nonce);
    |m| == 1 && m[0].event == "reserved" && m[0].digest == r.digest
  }

  function Consume(log: Log, r: Review): Result<Log> {
    if !Accepts(log) then Err("review ledger is inconsistent")
    else if !Pending(log, r) then Err("review nonce was already used")
    else Ok(log + [NewEntry(log, "consumed", r)])
  }

  function AssertPendingRetry(log: Log, r: Review): Result<()> {
    if !Accepts(log) then Err("review ledger is inconsistent")
    else if !Pending(log, r) then Err("review nonce is not a pending init")
    else Ok(())
  }

  /** The ledger object over its file, between lock acquisitions. */
  class ReviewLedger {
    var file: Option<Log>
    var lockFile: bool

    constructor ()
      ensures file == None && !lockFile
    {
      file, lockFile := None, false;
    }

    method Create(r: Review) returns (outcome: Result<()>)
      modifies this
      ensures outcome.Ok? <==> old(file) == None && !old(lockFile)
      ensures file == (if outcome.Ok? then Some([NewEntry([], "reserved", r)]) else old(file))
      ensures lockFile == (outcome.Ok? || old(lockFile))
    {
      if file.Some? || lockFile {
        return Err("review authority pin is inconsistent");
      }
      lockFile := true;
      file := Some([NewEntry([], "reserved", r)]);
      return Ok(());
    }

    /** Reserving twice with the same digest, before consuming, is one reservation. */
    method ReserveNonce(r: Review) returns (outcome: Result<()>)
      modifies this`file
      ensures outcome.Ok? <==> old(file).Some? && lockFile && Reserve(old(file).value, r).Ok?
      ensures file == (if outcome.Ok? then Some(Reserve(old(file).value, r).value) else old(file))
    {
      if file == None || !lockFile {
        return Err("review authority pin is unavailable");
      }
      var events := file.value;
      var ok := Validate(events);
      if !ok {
        return Err("review ledger is inconsistent");
      }
      var matching := Matching(events, r.nonce);
      if matching != [] {
        if matching[0].digest != r.digest || exists e :: e in matching && e.event == "consumed" {
          return Err("review nonce was already used");
        }
      } else {
        events := events + [NewEntry(events, "reserved", r)];
      }
      file := Some(events);
      return Ok(());
    }

    method ConsumeNonce(r: Review) returns (outcome: Result<()>)
      modifies this`file
      ensures outcome.Ok? <==> old(file).Some? && lockFile && Consume(old(file).value, r).Ok?
      ensures file == (if outcome.Ok? then Some(Consume(old(file).value, r).value) else old(file))
    {
      if file == None || !lockFile {
        return Err("review ledger is unavailable");
      }
      var events := file.value;
      var ok := Validate(events);
      if !ok {
        return Err("review ledger is inconsistent");
      }
      var matching := Matching(events, r.nonce);
      if |matching| != 1 || matching[0].event != "reserved" || matching[0].digest != r.digest {
        return Err("review nonce was already used");
      }
      file := Some(events + [NewEntry(events, "consumed", r)]);
      return Ok(());
    }
  }

  // ---- What the validator accepts is what the operations build

  datatype Op = ReserveOp(review: Review) | ConsumeOp(review: Review)

  function Perform(log: Log, op: Op): Result<Log> {
    match op
    case ReserveOp(r) => Reserve(log, r)
    case ConsumeOp(r) => Consume(log, r)
  }

  /** A run of operations from the empty log; one that raises leaves the log as it is. */
  function Build(ops: seq<Op>): Log {
    if ops == [] then []
    else
      var before := Build(ops[..|ops| - 1]);
      var after := Perform(before, ops[|ops| - 1]);
      if after.Ok? then after.value else before
  }

  ghost predicate Reachable(log: Log) {
    exists ops: seq<Op> :: (forall i :: 0 <= i < |ops| ==> Verified(ops[i].review)) && Build(ops) == log
  }

  predicate Carries(e: Entry, nonce: string) { e.Entry? && e.nonce == nonce }

  lemma NoMatches(log: Log, nonce: string)
    requires forall i :: 0 <= i < |log| ==> !Carries(log[i], nonce)
    ensures Matching(log, nonce) == []
    decreases |log|
  {}

  lemma {:induction false} MatchingOfOne(log: Log, nonce: string, k: nat)
    requires k < |log| && Carries(log[k], nonce)
    requires forall i :: 0 <= i < |log| && Carries(log[i], nonce) ==> i == k
    ensures Matching(log, nonce) == [log[k]]
    decreases |log|
  {
    if k == |log| - 1 {
      NoMatches(log[..|log| - 1], nonce);
    } else {
      MatchingOfOne(log[..|log| - 1], nonce, k);
    }
  }

  lemma {:induction false} TwoMatches(log: Log, nonce: string, i: nat, j: nat)
    requires i < j < |log| && Carries(log[i], nonce) && Carries(log[j], nonce)
    ensures |Matching(log, nonce)| >= 2
    decreases |log|
  {
    var shorter := log[..|log| - 1];
    if j == |log| - 1 {
      assert shorter[i] in Matching(shorter, nonce);
    } else {
      TwoMatches(shorter, nonce, i, j);
    }
  }

  lemma PerformKeepsAccepted(log: Log, op: Op)
    requires Accepts(log) && Verified(op.review) && Perform(log, op).Ok?
    ensures Accepts(Perform(log, op).value)
    ensures log <= Perform(log, op).value
  {
    var r := op.review;
    var log' := Perform(log, op).value;
    var m := Matching(log, r.nonce);
    if log' != log {
      forall i | 0 <= i < |log'| ensures Fits(log', i) {
        if i < |log| {
          assert Fits(log, i);
          FitsInLonger(log, log', i);
        } else if op.ReserveOp? {
          forall j | 0 <= j < i ensures !Is(log'[j], "reserved", r.nonce) {
            assert log'[j] == log[j] && log[j] in log;
            assert log[j] !in m;
          }
        } else {
          var e := m[0];
          assert e in m;
          var k :| 0 <= k < |log| && log[k] == e;
          assert Is(log'[k], "reserved", r.nonce) && log'[k].digest == r.digest;
          forall j | 0 <= j < i ensures !Is(log'[j], "consumed", r.nonce) {
            if Carries(log[j], r.nonce) && j != k {
              TwoMatches(log, r.nonce, if j < k then j else k, if j < k then k else j);
            }
          }
        }
      }
    }
  }

  lemma FitsInLonger(log: Log, longer: Log, i: nat)
    requires log <= longer && i < |log|
    ensures Fits(log, i) <==> Fits(longer, i)
  {}

  lemma {:induction false} BuiltIsAccepted(ops: seq<Op>)
    requires forall i :: 0 <= i < |ops| ==> Verified(ops[i].review)
    ensures Accepts(Build(ops))
    decreases |ops|
  {
    if ops != [] {
      var shorter := ops[..|ops| - 1];
      BuiltIsAccepted(shorter);
      if Perform(Build(shorter), ops[|ops| - 1]).Ok? {
        PerformKeepsAccepted(Build(shorter), ops[|ops| - 1]);
      }
    }
  }

  /** The operations that built an accepted log, read back from its entries. */
  function Reconstruct(log: Log): seq<Op>
    requires Accepts(log)
  {
    seq(|log|, i requires 0 <= i < |log| =>
      assert Fits(log, i);
      var r := Review(log[i].nonce, log[i].digest);
      if log[i].event == "reserved" then ReserveOp(r) else ConsumeOp(r))
  }

  predicate IntegerSequence(log: Log) {
    forall i :: 0 <= i < |log| && log[i].Entry? ==> log[i].sequence.Integer?
  }

  lemma LastStep(log: Log)
    requires Accepts(log) && IntegerSequence(log) && log != []
    ensures Accepts(log[..|log| - 1])
    ensures Perform(log[..|log| - 1], Reconstruct(log)[|log| - 1]) == Ok(log)
  {
    var n := |log| - 1;
    var shorter, last := log[..n], log[n];
    forall i | 0 <= i < n ensures Fits(shorter, i) {
      assert Fits(log, i);
      FitsInLonger(shorter, log, i);
    }
    assert Fits(log, n);
    if last.event == "reserved" {
      assert Matching(shorter, last.nonce) == [] by {
        NoEntryBeforeReservation(log, n);
      }
    } else {
      var k :| 0 <= k < n && Is(log[k], "reserved", last.nonce) && log[k].digest == last.digest;
      forall i | 0 <= i < n && Carries(shorter[i], last.nonce) ensures i == k {
        NonceHistory(log, if i < k then i else k, if i < k then k else i, n);
      }
      MatchingOfOne(shorter, last.nonce, k);
    }
    assert log == shorter + [last];
  }

  lemma NoEntryBeforeReservation(log: Log, n: nat)
    requires Accepts(log) && n < |log| && log[n].Entry? && log[n].event == "reserved"
    ensures forall i :: 0 <= i < n ==> !Carries(log[i], log[n].nonce)
    ensures Matching(log[..n], log[n].nonce) == []
  {
    assert Fits(log, n);
    forall i | 0 <= i < n ensures !Carries(log[i], log[n].nonce) {
      assert Fits(log, i);
    }
    NoMatches(log[..n], log[n].nonce);
  }

  /** One nonce has at most two entries: its reservation, and after it one consumption with the same
      digest. */
  lemma NonceHistory(log: Log, i: nat, j: nat, k: nat)
    requires Accepts(log) && i <= j < k < |log|
    requires log[k].Entry? && Carries(log[i], log[k].nonce) && Carries(log[j], log[k].nonce)
    ensures log[j].event == "reserved" && log[k].event == "consumed" && log[j].digest == log[k].digest
    ensures i == j
  {
    assert Fits(log, i) && Fits(log, j) && Fits(log, k);
    if log[k].event == "reserved" {
      NoEntryBeforeReservation(log, k);
    }
    NoEntryBeforeReservation(log, j);
    if log[k].event == "consumed" {
      var h :| 0 <= h < k && Is(log[h], "reserved", log[k].nonce) && log[h].digest == log[k].digest;
      NoEntryBeforeReservation(log, h);
    }
  }

  lemma {:induction false} ReconstructRebuilds(log: Log)
    requires Accepts(log) && IntegerSequence(log)
    ensures Build(Reconstruct(log)) == log
    ensures forall i :: 0 <= i < |log| ==> Verified(Reconstruct(log)[i].review)
    decreases |log|
  {
    forall i | 0 <= i < |log| ensures Verified(Reconstruct(log)[i].review) {
      assert Fits(log, i);
    }
    if log != [] {
      LastStep(log);
      var shorter := log[..|log| - 1];
      ReconstructRebuilds(shorter);
      assert Reconstruct(log)[..|log| - 1] == Reconstruct(shorter);
    }
  }

  lemma {:induction false} BuiltHasIntegerSequence(ops: seq<Op>)
    ensures IntegerSequence(Build(ops))
    decreases |ops|
  {
    if ops != [] {
      BuiltHasIntegerSequence(ops[..|ops| - 1]);
    }
  }

  /** The validator accepts exactly the logs the operations can build, among the logs whose sequence
      numbers are JSON integers. */
  lemma AcceptsIffReachable(log: Log)
    ensures Reachable(log) <==> Accepts(log) && IntegerSequence(log)
  {
    if Accepts(log) && IntegerSequence(log) {
      ReconstructRebuilds(log);
    }
    if Reachable(log) {
      var ops: seq<Op> :| (forall i :: 0 <= i < |ops| ==> Verified(ops[i].review)) && Build(ops) == log;
      BuiltIsAccepted(ops);
      BuiltHasIntegerSequence(ops);
    }
  }

  /** Among all JSON logs it accepts more: a sequence number may be a number or a boolean that
      merely compares equal. */
  lemma AcceptsAnUnreachableLog(r: Review)
    requires Verified(r)
    ensures var log := [Entry(Boolean(false), "reserved", r.nonce, r.digest)];
            Accepts(log) && !Reachable(log)
  {
    var log := [Entry(Boolean(false), "reserved", r.nonce, r.digest)];
    assert Fits(log, 0);
    AcceptsIffReachable(log);
    assert log[0].Entry? && !log[0].sequence.Integer?;
  }

  lemma {:induction false} HistoryIsOnlyExtended(ops: seq<Op>, k: nat)
    requires k <= |ops| && forall i :: 0 <= i < |ops| ==> Verified(ops[i].review)
    ensures Build(ops[..k]) <= Build(ops)
    decreases |ops|
  {
    if k == |ops| {
      assert ops[..k] == ops;
    } else {
      var shorter := ops[..|ops| - 1];
      HistoryIsOnlyExtended(shorter, k);
      assert shorter[..k] == ops[..k];
      BuiltIsAccepted(shorter);
      if Perform(Build(shorter), ops[|ops| - 1]).Ok? {
        PerformKeepsAccepted(Build(shorter), ops[|ops| - 1]);
      }
    }
  }

  /** Once a nonce is consumed no review that carries it can reserve, retry or consume again. */
  lemma ConsumedIsFinal(log: Log, longer: Log, r: Review, again: Review)
    requires Consume(log, r).Ok? && Consume(log, r).value <= longer && again.nonce == r.nonce
    ensures Reserve(longer, again).Err? && Consume(longer, again).Err? && AssertPendingRetry(longer, again).Err?
  {
    var e := NewEntry(log, "consumed", r);
    assert longer[|log|] == e && e in Matching(longer, r.nonce);
    var m := Matching(log, r.nonce);
    assert m[0] in m;
    var k :| 0 <= k < |log| && log[k] == m[0];
    assert longer[k] == log[k];
    TwoMatches(longer, r.nonce, k, |log|);
  }

  lemma ReservationIsTheOneMatch(log: Log, r: Review)
    requires Reserve(log, r).Ok? && Verified(r)
    ensures var held := Reserve(log, r).value; var m := Matching(held, r.nonce);
            Accepts(held) && |m| == 1 && m[0].Entry? && m[0].event == "reserved" && m[0].digest == r.digest
  {
    hide CanonicalNonce, LowerDigest, Verified;
    var held := Reserve(log, r).value;
    PerformKeepsAccepted(log, ReserveOp(r));
    if held != log {
      assert held[..|log|] == log;
      assert Matching(held, r.nonce) == [NewEntry(log, "reserved", r)];
    } else {
      var m := Matching(log, r.nonce);
      assert m[0] in m;
      var k :| 0 <= k < |log| && log[k] == m[0];
      assert Fits(log, k);
      forall i | 0 <= i < |log| && Carries(log[i], r.nonce) ensures i == k {
        assert log[i] in m && Fits(log, i);
      }
      MatchingOfOne(log, r.nonce, k);
    }
  }

  /** A reservation can be repeated and then consumed; with another digest it is refused. */
  lemma PendingReservation(log: Log, r: Review, other: Review)
    requires Reserve(log, r).Ok? && Verified(r) && other.nonce == r.nonce
    ensures var held := Reserve(log, r).value;
            && Reserve(held, other) == (if other.digest == r.digest then Ok(held) else Err("review nonce was already used"))
            && (Consume(held, other).Ok? <==> other.digest == r.digest)
            && (AssertPendingRetry(held, other).Ok? <==> other.digest == r.digest)
  {
    hide Verified, Matching, Accepts;
    ReservationIsTheOneMatch(log, r);
  }

  // ---- The texts it admits

  predicate IsHex(s: string) { forall c :: c in s ==> c in "0123456789abcdef" }

  lemma HexDigits(c: char)
    ensures LowerHex(c) <==> c in "0123456789abcdef"
  {
    var digits := "0123456789abcdef";
    if '0' <= c <= '9' {
      assert digits[c as int - '0' as int] == c;
    } else if 'a' <= c <= 'f' {
      assert digits[10 + c as int - 'a' as int] == c;
    }
  }

  /** The digits of a nonce, without its hyphens. */
  function DigitsOf(n: string): string
    requires |n| == 36
  {
    n[..8] + n[9..13] + n[14..18] + n[19..23] + n[24..]
  }

  /** A nonce is thirty-two lower-case hexadecimal digits, not all zero, in groups of 8, 4, 4, 4 and 12. */
  lemma NonceIsGrouped(n: string)
    ensures CanonicalNonce(n) <==>
            && |n| == 36 && n[8] == '-' && n[13] == '-' && n[18] == '-' && n[23] == '-'
            && IsHex(DigitsOf(n)) && exists c :: c in DigitsOf(n) && c != '0'
  {
    if |n| == 36 && n[8] == '-' && n[13] == '-' && n[18] == '-' && n[23] == '-' {
      forall c ensures c in DigitsOf(n) <==> exists i :: 0 <= i < 36 && !HyphenAt(i) && n[i] == c {
        DigitsAreTheRest(n, c);
      }
      forall c ensures LowerHex(c) <==> c in "0123456789abcdef" {
        HexDigits(c);
      }
      hide DigitsOf;
      if CanonicalNonce(n) {
        var i :| 0 <= i < 36 && n[i] != '-' && n[i] != '0';
        assert !HyphenAt(i) && n[i] in DigitsOf(n);
      }
    }
  }

  lemma DigitsAreTheRest(n: string, c: char)
    requires |n| == 36
    ensures c in DigitsOf(n) <==> exists i :: 0 <= i < 36 && !HyphenAt(i) && n[i] == c
  {
    var a, b, d, e, f := n[..8], n[9..13], n[14..18], n[19..23], n[24..];
    if i :| 0 <= i < 36 && !HyphenAt(i) && n[i] == c {
      assert i < 8 ==> a[i] == c;
      assert 8 < i < 13 ==> b[i - 9] == c;
      assert 13 < i < 18 ==> d[i - 14] == c;
      assert 18 < i < 23 ==> e[i - 19] == c;
      assert 23 < i ==> f[i - 24] == c;
    }
  }

  lemma DigestIsHex(d: string)
    ensures LowerDigest(d) <==> |d| == 64 && IsHex(d)
  {
    forall c ensures LowerHex(c) <==> c in "0123456789abcdef" {
      HexDigits(c);
    }
  }

  /** JSON's booleans pass for the sequence numbers 0 and 1, and for no other. */
  lemma BooleansPassForNumbers(flag: bool, n: int)
    ensures EqualsInt(Boolean(flag), n) <==> (!flag && n == 0) || (flag && n == 1)
  {}
}
