/** The normal form in which returned and persisted interrupts are compared. */
module InterruptNormalForm {
  import opened Outcomes
  import opened Sorting

  /** A float: finite ones by value, zero with its sign. */
  datatype Float = NotFinite | Finite(value: real, negativeZero: bool)

  datatype Key = TextKey(text: string) | OtherKey(id: nat)

  /** A runtime value by its exact type; dictionaries keep insertion order. */
  datatype Value =
    | None_
    | Bool(flag: bool)
    | Int(number: int)
    | Float(float: Float)
    | Str(text: string)
    | List(items: seq<Value>)
    | Dict(entries: seq<Entry>)
    | OtherValue
  datatype Entry = Entry(key: Key, value: Value)

  datatype Norm =
    | NoneNorm
    | BoolNorm(flag: bool)
    | IntNorm(number: int)
    | FloatNorm(value: real)
    | StrNorm(text: string)
    | ListNorm(items: seq<Norm>)
    | DictNorm(pairs: seq<Pair>)
  datatype Pair = Pair(key: string, norm: Norm)

  /** A dictionary has each key once. */
  predicate DistinctKeys(entries: seq<Entry>) {
    forall i, j :: 0 <= i < j < |entries| ==> entries[i].key != entries[j].key
  }

  predicate WellFormed(v: Value) {
    match v
    case List(items) => forall i :: 0 <= i < |items| ==> WellFormed(items[i])
    case Dict(entries) => DistinctKeys(entries) && forall i :: 0 <= i < |entries| ==> WellFormed(entries[i].value)
    case _ => true
  }

  predicate PairLe(a: Pair, b: Pair) { StringLe(a.key, b.key) }

  // ---- The normaliser

  function Normalize(v: Value): Option<Norm> {
    match v
    case None_ => Some(NoneNorm)
    case Bool(flag) => Some(BoolNorm(flag))
    case Int(n) => Some(IntNorm(n))
    case Float(f) => if f.Finite? then Some(FloatNorm(f.value)) else None
    case Str(t) => Some(StrNorm(t))
    case List(items) =>
      (match NormalizeAll(items)
       case None => None
       case Some(norms) => Some(ListNorm(norms)))
    case Dict(entries) =>
      (match NormalizeEntries(entries)
       case None => None
       case Some(pairs) => Some(DictNorm(SortBy(PairLe, pairs))))
    case OtherValue => None
  }

  function NormalizeAll(items: seq<Value>): (r: Option<seq<Norm>>)
    ensures r.Some? <==> forall i :: 0 <= i < |items| ==> Normalize(items[i]).Some?
    ensures r.Some? ==> |r.value| == |items| && forall i :: 0 <= i < |items| ==> Normalize(items[i]) == Some(r.value[i])
  {
    if items == [] then Some([])
    else match (Normalize(items[0]), NormalizeAll(items[1..]))
      case (Some(n), Some(rest)) => Some([n] + rest)
      case _ => None
  }

  function NormalizeEntry(e: Entry): Option<Pair> {
    if !e.key.TextKey? then None
    else match Normalize(e.value)
      case None => None
      case Some(n) => Some(Pair(e.key.text, n))
  }

  function NormalizeEntries(entries: seq<Entry>): (r: Option<seq<Pair>>)
    ensures r.Some? <==> forall i :: 0 <= i < |entries| ==> NormalizeEntry(entries[i]).Some?
    ensures r.Some? ==> |r.value| == |entries| && forall i :: 0 <= i < |entries| ==> NormalizeEntry(entries[i]) == Some(r.value[i])
  {
    if entries == [] then Some([])
    else match (NormalizeEntry(entries[0]), NormalizeEntries(entries[1..]))
      case (Some(p), Some(rest)) => Some([p] + rest)
      case _ => None
  }

  // ---- The serializer's check

  predicate JsonSafe(v: Value) {
    match v
    case Float(f) => f.Finite?
    case List(items) => forall i :: 0 <= i < |items| ==> JsonSafe(items[i])
    case Dict(entries) => forall i :: 0 <= i < |entries| ==> entries[i].key.TextKey? && JsonSafe(entries[i].value)
    case OtherValue => false
    case _ => true
  }

  /** The normaliser is defined exactly on what the checkpoint serializer accepts. */
  lemma {:induction false} NormalizesIffJsonSafe(v: Value)
    ensures Normalize(v).Some? <==> JsonSafe(v)
  {
    match v
    case List(items) =>
      forall i | 0 <= i < |items| ensures Normalize(items[i]).Some? <==> JsonSafe(items[i]) {
        NormalizesIffJsonSafe(items[i]);
      }
    case Dict(entries) =>
      forall i | 0 <= i < |entries| ensures NormalizeEntry(entries[i]).Some? <==> entries[i].key.TextKey? && JsonSafe(entries[i].value) {
        NormalizesIffJsonSafe(entries[i].value);
      }
    case _ =>
  }

  // ---- Deep equality

  /** Equal with exact types at every level, dictionaries without their insertion order. */
  predicate DeepEqual(a: Value, b: Value) {
    match a
    case None_ => b.None_?
    case Bool(x) => b.Bool? && x == b.flag
    case Int(x) => b.Int? && x == b.number
    case Float(x) => b.Float? && x.Finite? && b.float.Finite? && x.value == b.float.value
    case Str(x) => b.Str? && x == b.text
    case List(x) => b.List? && |x| == |b.items| && forall i :: 0 <= i < |x| ==> DeepEqual(x[i], b.items[i])
    case Dict(x) => b.Dict? && |x| == |b.entries| && forall i :: 0 <= i < |x| ==> HasEqual(x[i], b.entries)
    case OtherValue => false
  }

  predicate HasEqual(e: Entry, entries: seq<Entry>)
    decreases e, 1
  {
    exists j :: 0 <= j < |entries| && EntriesEqual(e, entries[j])
  }

  predicate EntriesEqual(e: Entry, f: Entry)
    decreases e, 0
  {
    e.key == f.key && DeepEqual(e.value, f.value)
  }

  lemma PairOrderIsTotal()
    ensures TotalPreorder(PairLe)
  {
    forall a, b ensures PairLe(a, b) || PairLe(b, a) { StringLeTotal(a.key, b.key); }
    forall a, b, c | PairLe(a, b) && PairLe(b, c) ensures PairLe(a, c) { StringLeTransitive(a.key, b.key, c.key); }
  }

  predicate DistinctPairs(pairs: seq<Pair>) {
    forall i, j :: 0 <= i < j < |pairs| ==> pairs[i].key != pairs[j].key
  }

  lemma DistinctPairsSort(p: seq<Pair>, q: seq<Pair>)
    requires DistinctPairs(p)
    ensures SortBy(PairLe, p) == SortBy(PairLe, q) <==> multiset(p) == multiset(q)
  {
    PairOrderIsTotal();
    hide StringLe;
    SortByIsSorted(PairLe, p);
    SortByIsSorted(PairLe, q);
    if multiset(p) == multiset(q) {
      var s := SortBy(PairLe, p);
      forall i, j | 0 <= i < |s| && 0 <= j < |s| && PairLe(s[i], s[j]) && PairLe(s[j], s[i]) ensures s[i] == s[j] {
        StringLeTotal(s[i].key, s[j].key);
        assert s[i] in multiset(p) && s[j] in multiset(p);
        var k :| 0 <= k < |p| && p[k] == s[i];
        var l :| 0 <= l < |p| && p[l] == s[j];
      }
      SortedIsUnique(PairLe, s, SortBy(PairLe, q));
    } else {
      assert multiset(SortBy(PairLe, p)) == multiset(p) && multiset(SortBy(PairLe, q)) == multiset(q);
    }
  }

  /** For lists of pairs with distinct keys: equal as multisets when one is inside the other. */
  lemma {:induction false} SubsetOfSameSize(p: seq<Pair>, q: seq<Pair>)
    requires DistinctPairs(p) && |p| == |q|
    requires forall i :: 0 <= i < |p| ==> p[i] in q
    ensures multiset(p) == multiset(q)
    decreases |p|
  {
    if p == [] {
    } else {
      var j :| 0 <= j < |q| && q[j] == p[0];
      var rest := q[..j] + q[j + 1..];
      assert q == q[..j] + [q[j]] + q[j + 1..];
      forall i | 0 <= i < |p| - 1 ensures p[1..][i] in rest {
        assert p[i + 1] in q && p[i + 1].key != p[0].key;
        var k :| 0 <= k < |q| && q[k] == p[i + 1];
        assert k < j ==> rest[k] == q[k];
        assert k > j ==> rest[k - 1] == q[k];
      }
      SubsetOfSameSize(p[1..], rest);
      assert p == [p[0]] + p[1..];
    }
  }

  lemma NormPairsAreDistinct(entries: seq<Entry>, pairs: seq<Pair>)
    requires DistinctKeys(entries) && NormalizeEntries(entries) == Some(pairs)
    ensures DistinctPairs(pairs)
  {}

  /** Two well-formed values have the same normal form exactly when they are deeply equal. */
  lemma {:induction false} SameNormIffDeepEqual(a: Value, b: Value)
    requires WellFormed(a) && WellFormed(b) && Normalize(a).Some? && Normalize(b).Some?
    ensures Normalize(a) == Normalize(b) <==> DeepEqual(a, b)
    decreases a
  {
    if a.List? && b.List? {
      forall i | 0 <= i < |a.items| && i < |b.items|
        ensures Normalize(a.items[i]) == Normalize(b.items[i]) <==> DeepEqual(a.items[i], b.items[i])
      {
        SameNormIffDeepEqual(a.items[i], b.items[i]);
      }
      SameListNorm(a.items, b.items);
    } else if a.Dict? && b.Dict? {
      forall i, j | 0 <= i < |a.entries| && 0 <= j < |b.entries|
        ensures NormalizeEntry(a.entries[i]) == NormalizeEntry(b.entries[j]) <==> EntriesEqual(a.entries[i], b.entries[j])
      {
        SameEntryNorm(a.entries[i], b.entries[j]);
      }
      SameDictNorm(a.entries, b.entries);
    }
  }

  lemma {:induction false} SameEntryNorm(e: Entry, f: Entry)
    requires WellFormed(e.value) && WellFormed(f.value) && NormalizeEntry(e).Some? && NormalizeEntry(f).Some?
    ensures NormalizeEntry(e) == NormalizeEntry(f) <==> EntriesEqual(e, f)
    decreases e
  {
    SameNormIffDeepEqual(e.value, f.value);
  }

  lemma SameListNorm(x: seq<Value>, y: seq<Value>)
    requires NormalizeAll(x).Some? && NormalizeAll(y).Some?
    requires forall i :: 0 <= i < |x| && i < |y| ==> (Normalize(x[i]) == Normalize(y[i]) <==> DeepEqual(x[i], y[i]))
    ensures NormalizeAll(x) == NormalizeAll(y) <==> |x| == |y| && forall i :: 0 <= i < |x| ==> DeepEqual(x[i], y[i])
  {
    hide Normalize, DeepEqual, NormalizeAll;
    var p, q := NormalizeAll(x).value, NormalizeAll(y).value;
    if |x| == |y| {
      forall i | 0 <= i < |x| ensures p[i] == q[i] <==> DeepEqual(x[i], y[i]) {
        assert Normalize(x[i]) == Some(p[i]) && Normalize(y[i]) == Some(q[i]);
      }
      assert p == q <==> forall i :: 0 <= i < |p| ==> p[i] == q[i];
    }
  }

  lemma SameDictNorm(x: seq<Entry>, y: seq<Entry>)
    requires DistinctKeys(x) && DistinctKeys(y) && NormalizeEntries(x).Some? && NormalizeEntries(y).Some?
    requires forall i, j :: 0 <= i < |x| && 0 <= j < |y| ==> (NormalizeEntry(x[i]) == NormalizeEntry(y[j]) <==> EntriesEqual(x[i], y[j]))
    ensures SortBy(PairLe, NormalizeEntries(x).value) == SortBy(PairLe, NormalizeEntries(y).value) <==>
            |x| == |y| && forall i :: 0 <= i < |x| ==> HasEqual(x[i], y)
  {
    hide NormalizeEntry, EntriesEqual, NormalizeEntries, SortBy, PairLe;
    var p, q := NormalizeEntries(x).value, NormalizeEntries(y).value;
    NormPairsAreDistinct(x, p);
    DistinctPairsSort(p, q);
    forall i, j | 0 <= i < |x| && 0 <= j < |y| ensures p[i] == q[j] <==> EntriesEqual(x[i], y[j]) {
      assert NormalizeEntry(x[i]) == Some(p[i]) && NormalizeEntry(y[j]) == Some(q[j]);
    }
    if multiset(p) == multiset(q) {
      assert |p| == |multiset(p)| == |multiset(q)| == |q|;
      forall i | 0 <= i < |x| ensures HasEqual(x[i], y) {
        assert p[i] in multiset(q);
        var j :| 0 <= j < |q| && q[j] == p[i];
        assert EntriesEqual(x[i], y[j]);
      }
    }
    if |x| == |y| && forall i :: 0 <= i < |x| ==> HasEqual(x[i], y) {
      forall i | 0 <= i < |p| ensures p[i] in q {
        assert HasEqual(x[i], y);
        var j :| 0 <= j < |y| && EntriesEqual(x[i], y[j]);
        assert q[j] == p[i];
      }
      SubsetOfSameSize(p, q);
    }
  }

  // ---- Interrupt sequences

  /** A member of an interrupt list: an interrupt, with its id if that is a string, or something else. */
  datatype Pending = Interrupt(id: Option<string>, value: Value) | NotAnInterrupt

  datatype Named = Named(id: string, norm: Norm)

  function NormalOf(p: Pending): Option<Named> {
    if p.Interrupt? && p.id.Some? && Normalize(p.value).Some? then Some(Named(p.id.value, Normalize(p.value).value)) else None
  }

  predicate AllNormal(interrupts: seq<Pending>) { forall i :: 0 <= i < |interrupts| ==> NormalOf(interrupts[i]).Some? }

  function NormalsOf(interrupts: seq<Pending>): seq<Named>
    requires AllNormal(interrupts)
  {
    seq(|interrupts|, i requires 0 <= i < |interrupts| => NormalOf(interrupts[i]).value)
  }

  method NormalizeInterrupts(interrupts: seq<Pending>) returns (r: Option<seq<Named>>)
    ensures r == if AllNormal(interrupts) then Some(NormalsOf(interrupts)) else None
  {
    var normalized: seq<Named> := [];
    for i := 0 to |interrupts|
      invariant AllNormal(interrupts[..i]) && normalized == NormalsOf(interrupts[..i])
    {
      hide Normalize;
      var pending := interrupts[i];
      assert interrupts[..i + 1] == interrupts[..i] + [pending];
      if !pending.Interrupt? || pending.id.None? {
        assert NormalOf(interrupts[i]).None?;
        return None;
      }
      var norm := Normalize(pending.value);
      if norm.None? {
        assert NormalOf(interrupts[i]).None?;
        return None;
      }
      normalized := normalized + [Named(pending.id.value, norm.value)];
    }
    assert interrupts[..|interrupts|] == interrupts;
    return Some(normalized);
  }

  /** The serializer's transport envelope: a non-empty tuple of interrupts with JSON values. */
  predicate ValidEnvelope(interrupts: seq<Pending>) {
    interrupts != [] && forall i :: 0 <= i < |interrupts| ==>
      interrupts[i].Interrupt? && interrupts[i].id.Some? && JsonSafe(interrupts[i].value)
  }

  /** The envelopes that can be persisted are the sequences, but for the empty one, that can be compared. */
  lemma EnvelopeIffNormal(interrupts: seq<Pending>)
    ensures ValidEnvelope(interrupts) <==> AllNormal(interrupts) && interrupts != []
  {
    forall i | 0 <= i < |interrupts| && interrupts[i].Interrupt?
      ensures Normalize(interrupts[i].value).Some? <==> JsonSafe(interrupts[i].value)
    {
      NormalizesIffJsonSafe(interrupts[i].value);
    }
  }

  predicate WellFormedPending(p: Pending) { p.Interrupt? ==> WellFormed(p.value) }

  // ---- Confirmation of a checkpoint

  /** A `configurable` mapping: the three entries that are read, if present. */
  datatype Identity = Identity(thread: Option<Value>, checkpoint: Option<Value>, namespace: Option<Value>)

  function NamespaceOf(i: Identity): Value { i.namespace.GetOr(Str("")) }

  /** The reads around one graph invocation. */
  datatype Observed = Observed(before: Option<Identity>, saved: Option<Identity>, snapshot: Identity,
                               returned: seq<Pending>, pending: seq<Pending>)

  function PreviousId(before: Option<Identity>): Option<string> {
    if before.Some? && before.value.checkpoint.Some? && before.value.checkpoint.value.Str? && before.value.checkpoint.value.text != ""
    then Some(before.value.checkpoint.value.text)
    else None
  }

  predicate TextIs(v: Option<Value>, text: string) { v == Some(Str(text)) }

  /** What a confirmed invocation has shown. */
  predicate Confirms(thread: string, o: Observed, expectInterrupt: Option<bool>, checkpoint: string) {
    && o.saved.Some? && TextIs(o.saved.value.thread, thread) && TextIs(o.saved.value.checkpoint, checkpoint) && checkpoint != ""
    && NamespaceOf(o.saved.value) == Str("")
    && PreviousId(o.before) != Some(checkpoint)
    && TextIs(o.snapshot.thread, thread) && TextIs(o.snapshot.checkpoint, checkpoint) && NamespaceOf(o.snapshot) == Str("")
    && AllNormal(o.returned) && AllNormal(o.pending) && NormalsOf(o.returned) == NormalsOf(o.pending)
    && (expectInterrupt.Some? ==> expectInterrupt.value == (o.returned != []))
  }

  method ConfirmCheckpoint(thread: string, o: Observed, expectInterrupt: Option<bool>) returns (r: Result<string>)
    ensures r.Ok? ==> Confirms(thread, o, expectInterrupt, r.value)
    ensures r.Err? ==> forall checkpoint :: !Confirms(thread, o, expectInterrupt, checkpoint)
  {
    if o.saved.None? {
      return Err("checkpoint was not persisted");
    }
    var saved := o.saved.value;
    if !TextIs(saved.thread, thread) || saved.checkpoint.None? || !saved.checkpoint.value.Str? || saved.checkpoint.value.text == "" {
      return Err("checkpoint identity mismatch");
    }
    var checkpoint := saved.checkpoint.value.text;
    if NamespaceOf(saved) != Str("") {
      return Err("top-level checkpoint namespace must be root");
    }
    if PreviousId(o.before) == Some(checkpoint) {
      return Err("checkpoint did not advance");
    }
    if !TextIs(o.snapshot.thread, thread) || !TextIs(o.snapshot.checkpoint, checkpoint) || NamespaceOf(o.snapshot) != Str("") {
      return Err("checkpoint snapshot identity mismatch");
    }
    var returned := NormalizeInterrupts(o.returned);
    if returned.None? {
      return Err("checkpoint interrupt state mismatch");
    }
    var pending := NormalizeInterrupts(o.pending);
    if pending.None? || returned.value != pending.value {
      return Err("checkpoint interrupt state mismatch");
    }
    if expectInterrupt.Some? && (returned.value != []) != expectInterrupt.value {
      return Err("checkpoint interrupt state mismatch");
    }
    return Ok(checkpoint);
  }

  /** A confirmation certifies that the checkpoint advanced and that what was returned is what was
      persisted: the same interrupts, in order, with deeply equal values. */
  lemma ConfirmedInterruptsAreEqual(thread: string, o: Observed, expectInterrupt: Option<bool>, checkpoint: string)
    requires Confirms(thread, o, expectInterrupt, checkpoint)
    requires forall i :: 0 <= i < |o.returned| ==> WellFormedPending(o.returned[i])
    requires forall i :: 0 <= i < |o.pending| ==> WellFormedPending(o.pending[i])
    ensures |o.returned| == |o.pending|
    ensures forall i :: 0 <= i < |o.returned| ==>
      o.returned[i].Interrupt? && o.pending[i].Interrupt? && o.returned[i].id == o.pending[i].id
      && DeepEqual(o.returned[i].value, o.pending[i].value)
  {
    hide Normalize, DeepEqual, WellFormed;
    var x, y := NormalsOf(o.returned), NormalsOf(o.pending);
    assert |x| == |o.returned| && |y| == |o.pending|;
    forall i | 0 <= i < |o.returned|
      ensures o.returned[i].Interrupt? && o.pending[i].Interrupt? && o.returned[i].id == o.pending[i].id
      ensures DeepEqual(o.returned[i].value, o.pending[i].value)
    {
      assert x[i] == y[i] && NormalOf(o.returned[i]).Some? && NormalOf(o.pending[i]).Some?;
      SameNormIffDeepEqual(o.returned[i].value, o.pending[i].value);
    }
  }

  /** Two members of interrupt lists are the same interrupt: ids, JSON-safe values, deeply equal. */
  predicate SameInterrupt(a: Pending, b: Pending) {
    && a.Interrupt? && b.Interrupt? && a.id.Some? && a.id == b.id
    && JsonSafe(a.value) && JsonSafe(b.value) && DeepEqual(a.value, b.value)
  }

  lemma SameNormalIffSameInterrupt(a: Pending, b: Pending)
    requires WellFormedPending(a) && WellFormedPending(b)
    ensures NormalOf(a).Some? && NormalOf(b).Some? && NormalOf(a) == NormalOf(b) <==> SameInterrupt(a, b)
  {
    if a.Interrupt? && b.Interrupt? {
      NormalizesIffJsonSafe(a.value);
      NormalizesIffJsonSafe(b.value);
      if JsonSafe(a.value) && JsonSafe(b.value) {
        SameNormIffDeepEqual(a.value, b.value);
      }
    }
    hide Normalize, JsonSafe, DeepEqual, WellFormed;
  }

  /** A root checkpoint of this thread. */
  predicate IsRootOf(i: Identity, thread: string, checkpoint: string) {
    && i.thread == Some(Str(thread)) && i.checkpoint == Some(Str(checkpoint))
    && (i.namespace == None || i.namespace == Some(Str("")))
  }

  /** An invocation is confirmed exactly if a root checkpoint of its thread was saved and is the one the
      snapshot shows, it is not the one there was before, and the interrupts returned are one by one
      the interrupts persisted, of which there are some if and only if that was expected. */
  lemma ConfirmedIff(thread: string, o: Observed, expectInterrupt: Option<bool>, checkpoint: string)
    requires forall i :: 0 <= i < |o.returned| ==> WellFormedPending(o.returned[i])
    requires forall i :: 0 <= i < |o.pending| ==> WellFormedPending(o.pending[i])
    ensures Confirms(thread, o, expectInterrupt, checkpoint) <==>
            && checkpoint != "" && o.saved.Some? && IsRootOf(o.saved.value, thread, checkpoint) && IsRootOf(o.snapshot, thread, checkpoint)
            && (o.before.Some? ==> o.before.value.checkpoint != Some(Str(checkpoint)))
            && |o.returned| == |o.pending| && (forall i :: 0 <= i < |o.returned| ==> SameInterrupt(o.returned[i], o.pending[i]))
            && (expectInterrupt == Some(true) ==> |o.returned| > 0) && (expectInterrupt == Some(false) ==> |o.returned| == 0)
  {
    hide NormalOf, SameInterrupt;
    if |o.returned| == |o.pending| {
      forall i | 0 <= i < |o.returned|
        ensures NormalOf(o.returned[i]).Some? && NormalOf(o.pending[i]).Some? && NormalOf(o.returned[i]) == NormalOf(o.pending[i])
                <==> SameInterrupt(o.returned[i], o.pending[i])
      {
        SameNormalIffSameInterrupt(o.returned[i], o.pending[i]);
      }
    }
    NormalsAgreeIff(o.returned, o.pending);
    hide AllNormal, NormalsOf;
  }

  lemma NormalsAgreeIff(a: seq<Pending>, b: seq<Pending>)
    ensures AllNormal(a) && AllNormal(b) && NormalsOf(a) == NormalsOf(b) <==>
            && |a| == |b|
            && forall i :: 0 <= i < |a| ==> NormalOf(a[i]).Some? && NormalOf(b[i]).Some? && NormalOf(a[i]) == NormalOf(b[i])
  {
    hide NormalOf;
    if AllNormal(a) && AllNormal(b) {
      var x, y := NormalsOf(a), NormalsOf(b);
      assert |x| == |a| && |y| == |b|;
      if x == y {
        forall i | 0 <= i < |a| ensures NormalOf(a[i]) == NormalOf(b[i]) {
          assert x[i] == y[i];
        }
      }
    }
  }
}
