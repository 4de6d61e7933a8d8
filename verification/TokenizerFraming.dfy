/** The byte stream hashed to identify a tokenizer definition, and why it identifies it. */
module TokenizerFraming {
  import opened Outcomes
  import opened Sorting
  import opened ByteCodecs

  datatype RankItem = RankItem(token: Bytes, rank: nat)
  datatype SpecialItem = SpecialItem(text: string, rank: nat)

  /** The copied definition; the two dictionaries by their items, in insertion order. */
  datatype Snapshot = Snapshot(name: string, pattern: string, ranks: seq<RankItem>, specials: seq<SpecialItem>,
                               maxToken: nat, core: seq<Bytes>)

  /** Bytes compare like strings: by value, left to right. */
  predicate BytesLe(a: Bytes, b: Bytes) {
    if a == [] then true
    else if b == [] then false
    else if a[0] == b[0] then BytesLe(a[1..], b[1..])
    else a[0] < b[0]
  }

  predicate RankLe(a: RankItem, b: RankItem) {
    a.rank < b.rank || (a.rank == b.rank && BytesLe(a.token, b.token))
  }

  predicate SpecialLe(a: SpecialItem, b: SpecialItem) {
    StringLe(a.text, b.text) && (a.text == b.text ==> a.rank <= b.rank)
  }

  function RankFrame(i: RankItem): Bytes { Sized(i.token) + Be8(i.rank) }

  function SpecialFrame(i: SpecialItem): Bytes { Sized(Utf8(i.text)) + Be8(i.rank) }

  function RankFrames(items: seq<RankItem>): Bytes {
    if items == [] then [] else RankFrame(items[0]) + RankFrames(items[1..])
  }

  function SpecialFrames(items: seq<SpecialItem>): Bytes {
    if items == [] then [] else SpecialFrame(items[0]) + SpecialFrames(items[1..])
  }

  function CoreFrames(tokens: seq<Bytes>): Bytes {
    if tokens == [] then [] else Sized(tokens[0]) + CoreFrames(tokens[1..])
  }

  const DOMAIN := "rag-tokenizer-definition:v2\0"

  function Stream(s: Snapshot): Bytes {
    var ranks, specials := SortBy(RankLe, s.ranks), SortBy(SpecialLe, s.specials);
    Utf8(DOMAIN)
    + (Sized(Utf8(s.name))
    + (Sized(Utf8(s.pattern))
    + (Be8(|ranks|) + (RankFrames(ranks)
    + (Be8(|s.core|) + (CoreFrames(s.core)
    + (Be8(|specials|) + (SpecialFrames(specials)
    + Be8(s.maxToken)))))))))
  }

  /** What the copier of a definition has checked: lengths and ranks fit in eight bytes. */
  ghost predicate Copied(s: Snapshot) {
    && |Utf8(s.name)| < WORD && |Utf8(s.pattern)| < WORD
    && |s.ranks| < WORD && (forall i :: i in s.ranks ==> |i.token| < WORD && i.rank < WORD)
    && |s.core| < WORD && (forall t :: t in s.core ==> |t| < WORD)
    && |s.specials| < WORD && (forall i :: i in s.specials ==> |Utf8(i.text)| < WORD && i.rank < WORD)
  }

  ghost predicate Bounded(s: Snapshot) { Copied(s) && s.maxToken < WORD }

  /** The running hash input. */
  class Digest {
    var content: Bytes

    constructor (start: Bytes)
      ensures content == start
    {
      content := start;
    }

    method Update(v: Bytes)
      modifies this
      ensures content == old(content) + v
    {
      content := content + v;
    }

    method UpdateSized(v: Bytes)
      modifies this
      ensures content == old(content) + Sized(v)
    {
      Update(Be8(|v|));
      Update(v);
    }
  }

  method UpdateRanks(d: Digest, items: seq<RankItem>)
    modifies d
    ensures d.content == old(d.content) + RankFrames(items)
  {
    hide Sized, Be8;
    for i := 0 to |items|
      invariant d.content + RankFrames(items[i..]) == old(d.content) + RankFrames(items)
    {
      d.UpdateSized(items[i].token);
      d.Update(Be8(items[i].rank));
      assert items[i..][1..] == items[i + 1..];
    }
    assert items[|items|..] == [];
  }

  method UpdateCore(d: Digest, tokens: seq<Bytes>)
    modifies d
    ensures d.content == old(d.content) + CoreFrames(tokens)
  {
    hide Sized;
    for i := 0 to |tokens|
      invariant d.content + CoreFrames(tokens[i..]) == old(d.content) + CoreFrames(tokens)
    {
      d.UpdateSized(tokens[i]);
      assert tokens[i..][1..] == tokens[i + 1..];
    }
    assert tokens[|tokens|..] == [];
  }

  method UpdateSpecials(d: Digest, items: seq<SpecialItem>)
    modifies d
    ensures d.content == old(d.content) + SpecialFrames(items)
  {
    hide Sized, Be8, Utf8;
    for i := 0 to |items|
      invariant d.content + SpecialFrames(items[i..]) == old(d.content) + SpecialFrames(items)
    {
      d.UpdateSized(Utf8(items[i].text));
      d.Update(Be8(items[i].rank));
      assert items[i..][1..] == items[i + 1..];
    }
    assert items[|items|..] == [];
  }

  lemma Regroup(a: Bytes, b: Bytes, c: Bytes, d: Bytes, e: Bytes, f: Bytes, g: Bytes, h: Bytes, i: Bytes, j: Bytes)
    ensures a + (b + (c + (d + (e + (f + (g + (h + (i + j)))))))) == a + b + c + d + e + f + g + h + i + j
  {}

  /** Only the largest token value can be too wide: the copier does not bound it. */
  method Fingerprint(s: Snapshot) returns (hashed: Result<Bytes>)
    requires Copied(s)
    ensures hashed == if s.maxToken < WORD then Ok(Stream(s)) else Err("int too big to convert")
  {
    hide Sized, Be8, Utf8, RankFrames, CoreFrames, SpecialFrames, SortBy, Copied;
    var d := new Digest(Utf8(DOMAIN));
    d.UpdateSized(Utf8(s.name));
    d.UpdateSized(Utf8(s.pattern));
    var ranks := SortBy(RankLe, s.ranks);
    d.Update(Be8(|ranks|));
    UpdateRanks(d, ranks);
    d.Update(Be8(|s.core|));
    UpdateCore(d, s.core);
    var specials := SortBy(SpecialLe, s.specials);
    d.Update(Be8(|specials|));
    UpdateSpecials(d, specials);
    if s.maxToken >= WORD {
      return Err("int too big to convert");
    }
    d.Update(Be8(s.maxToken));
    Regroup(Utf8(DOMAIN), Sized(Utf8(s.name)), Sized(Utf8(s.pattern)), Be8(|ranks|), RankFrames(ranks), Be8(|s.core|), CoreFrames(s.core),
            Be8(|specials|), SpecialFrames(specials), Be8(s.maxToken));
    return Ok(d.content);
  }

  // ---- The orders

  lemma {:induction false} BytesLeTotal(a: Bytes, b: Bytes)
    ensures BytesLe(a, b) || BytesLe(b, a)
    ensures BytesLe(a, b) && BytesLe(b, a) ==> a == b
  {
    if a != [] && b != [] {
      BytesLeTotal(a[1..], b[1..]);
      assert a == [a[0]] + a[1..] && b == [b[0]] + b[1..];
    }
  }

  lemma {:induction false} BytesLeTransitive(a: Bytes, b: Bytes, c: Bytes)
    requires BytesLe(a, b) && BytesLe(b, c)
    ensures BytesLe(a, c)
  {
    if a != [] && b != [] && c != [] && a[0] == b[0] == c[0] {
      BytesLeTransitive(a[1..], b[1..], c[1..]);
    }
  }

  lemma OrdersAreTotal()
    ensures TotalPreorder(RankLe) && TotalPreorder(SpecialLe)
    ensures forall a, b :: RankLe(a, b) && RankLe(b, a) ==> a == b
    ensures forall a, b :: SpecialLe(a, b) && SpecialLe(b, a) ==> a == b
  {
    hide BytesLe, StringLe;
    forall a, b ensures (RankLe(a, b) || RankLe(b, a)) && (RankLe(a, b) && RankLe(b, a) ==> a == b) {
      BytesLeTotal(a.token, b.token);
    }
    forall a, b, c | RankLe(a, b) && RankLe(b, c) ensures RankLe(a, c) {
      if a.rank == b.rank == c.rank {
        BytesLeTransitive(a.token, b.token, c.token);
      }
    }
    forall a, b ensures (SpecialLe(a, b) || SpecialLe(b, a)) && (SpecialLe(a, b) && SpecialLe(b, a) ==> a == b) {
      StringLeTotal(a.text, b.text);
    }
    forall a, b, c | SpecialLe(a, b) && SpecialLe(b, c) ensures SpecialLe(a, c) {
      StringLeTransitive(a.text, b.text, c.text);
      StringLeTotal(a.text, b.text);
      StringLeTotal(b.text, c.text);
    }
  }

  // ---- Unique decodability

  lemma {:induction false} RankFramesPrefixFree(a: seq<RankItem>, x: Bytes, b: seq<RankItem>, y: Bytes)
    requires |a| == |b| && RankFrames(a) + x == RankFrames(b) + y
    requires forall i :: i in a || i in b ==> |i.token| < WORD && i.rank < WORD
    ensures a == b && x == y
  {
    hide Sized, Be8;
    if a == [] {
      assert RankFrames(a) + x == x && RankFrames(b) + y == y;
    } else {
      var p, q := RankFrames(a[1..]) + x, RankFrames(b[1..]) + y;
      assert RankFrames(a) + x == Sized(a[0].token) + (Be8(a[0].rank) + p);
      assert RankFrames(b) + y == Sized(b[0].token) + (Be8(b[0].rank) + q);
      SizedPrefixFree(a[0].token, Be8(a[0].rank) + p, b[0].token, Be8(b[0].rank) + q);
      Be8PrefixFree(a[0].rank, p, b[0].rank, q);
      RankFramesPrefixFree(a[1..], x, b[1..], y);
      assert a == [a[0]] + a[1..] && b == [b[0]] + b[1..];
    }
  }

  lemma {:induction false} SpecialFramesPrefixFree(a: seq<SpecialItem>, x: Bytes, b: seq<SpecialItem>, y: Bytes)
    requires |a| == |b| && SpecialFrames(a) + x == SpecialFrames(b) + y
    requires forall i :: i in a || i in b ==> |Utf8(i.text)| < WORD && i.rank < WORD
    ensures a == b && x == y
  {
    hide Sized, Be8, Utf8;
    if a == [] {
      assert SpecialFrames(a) + x == x && SpecialFrames(b) + y == y;
    } else {
      var p, q := SpecialFrames(a[1..]) + x, SpecialFrames(b[1..]) + y;
      assert SpecialFrames(a) + x == Sized(Utf8(a[0].text)) + (Be8(a[0].rank) + p);
      assert SpecialFrames(b) + y == Sized(Utf8(b[0].text)) + (Be8(b[0].rank) + q);
      SizedPrefixFree(Utf8(a[0].text), Be8(a[0].rank) + p, Utf8(b[0].text), Be8(b[0].rank) + q);
      Be8PrefixFree(a[0].rank, p, b[0].rank, q);
      Utf8Injective(a[0].text, b[0].text);
      SpecialFramesPrefixFree(a[1..], x, b[1..], y);
      assert a == [a[0]] + a[1..] && b == [b[0]] + b[1..];
    }
  }

  lemma {:induction false} CoreFramesPrefixFree(a: seq<Bytes>, x: Bytes, b: seq<Bytes>, y: Bytes)
    requires |a| == |b| && CoreFrames(a) + x == CoreFrames(b) + y
    requires forall t :: t in a || t in b ==> |t| < WORD
    ensures a == b && x == y
  {
    hide Sized;
    if a == [] {
      assert CoreFrames(a) + x == x && CoreFrames(b) + y == y;
    } else {
      var p, q := CoreFrames(a[1..]) + x, CoreFrames(b[1..]) + y;
      assert CoreFrames(a) + x == Sized(a[0]) + p;
      assert CoreFrames(b) + y == Sized(b[0]) + q;
      SizedPrefixFree(a[0], p, b[0], q);
      CoreFramesPrefixFree(a[1..], x, b[1..], y);
      assert a == [a[0]] + a[1..] && b == [b[0]] + b[1..];
    }
  }

  /** The same definition, dictionaries compared without order. */
  ghost predicate SameDefinition(a: Snapshot, b: Snapshot) {
    && a.name == b.name && a.pattern == b.pattern && multiset(a.ranks) == multiset(b.ranks) && a.core == b.core
    && multiset(a.specials) == multiset(b.specials) && a.maxToken == b.maxToken
  }

  lemma SameMembers<T>(s: seq<T>, t: seq<T>)
    requires multiset(s) == multiset(t)
    ensures |s| == |t| && forall x :: x in s <==> x in t
  {
    assert |s| == |multiset(s)| && |t| == |multiset(t)|;
    forall x ensures x in s <==> x in t {
      assert x in s <==> x in multiset(s);
      assert x in t <==> x in multiset(t);
    }
  }

  /** The stream behind the domain tag, decoded part by part. */
  lemma PartsAreEqual(a: Snapshot, b: Snapshot)
    requires Bounded(a) && Bounded(b) && Stream(a) == Stream(b)
    ensures a.name == b.name && a.pattern == b.pattern && a.core == b.core && a.maxToken == b.maxToken
    ensures SortBy(RankLe, a.ranks) == SortBy(RankLe, b.ranks) && SortBy(SpecialLe, a.specials) == SortBy(SpecialLe, b.specials)
  {
    hide Utf8, Sized, Be8, RankFrames, SpecialFrames, CoreFrames, SortBy;
    var ra, rb := SortBy(RankLe, a.ranks), SortBy(RankLe, b.ranks);
    var sa, sb := SortBy(SpecialLe, a.specials), SortBy(SpecialLe, b.specials);
    SameMembers(ra, a.ranks); SameMembers(rb, b.ranks);
    SameMembers(sa, a.specials); SameMembers(sb, b.specials);
    var none: Bytes := [];
    var a8, b8 := Be8(a.maxToken), Be8(b.maxToken);
    var a7, b7 := SpecialFrames(sa) + a8, SpecialFrames(sb) + b8;
    var a6, b6 := Be8(|sa|) + a7, Be8(|sb|) + b7;
    var a5, b5 := CoreFrames(a.core) + a6, CoreFrames(b.core) + b6;
    var a4, b4 := Be8(|a.core|) + a5, Be8(|b.core|) + b5;
    var a3, b3 := RankFrames(ra) + a4, RankFrames(rb) + b4;
    var a2, b2 := Be8(|ra|) + a3, Be8(|rb|) + b3;
    var a1, b1 := Sized(Utf8(a.pattern)) + a2, Sized(Utf8(b.pattern)) + b2;
    SplitEqual(Utf8(DOMAIN), Sized(Utf8(a.name)) + a1, Utf8(DOMAIN), Sized(Utf8(b.name)) + b1);
    SizedPrefixFree(Utf8(a.name), a1, Utf8(b.name), b1);
    Utf8Injective(a.name, b.name);
    SizedPrefixFree(Utf8(a.pattern), a2, Utf8(b.pattern), b2);
    Utf8Injective(a.pattern, b.pattern);
    Be8PrefixFree(|ra|, a3, |rb|, b3);
    RankFramesPrefixFree(ra, a4, rb, b4);
    Be8PrefixFree(|a.core|, a5, |b.core|, b5);
    CoreFramesPrefixFree(a.core, a6, b.core, b6);
    Be8PrefixFree(|sa|, a7, |sb|, b7);
    SpecialFramesPrefixFree(sa, a8, sb, b8);
    assert a8 + none == b8 + none;
    Be8PrefixFree(a.maxToken, none, b.maxToken, none);
  }

  /** Two definitions inside the 64-bit bounds hash the same bytes exactly when they are the same. */
  lemma StreamIdentifiesDefinition(a: Snapshot, b: Snapshot)
    requires Bounded(a) && Bounded(b)
    ensures Stream(a) == Stream(b) <==> SameDefinition(a, b)
  {
    hide Utf8, Sized, Be8, RankFrames, SpecialFrames, CoreFrames, Bounded;
    if Stream(a) == Stream(b) {
      PartsAreEqual(a, b);
      hide SortBy, Stream;
      assert multiset(a.ranks) == multiset(SortBy(RankLe, a.ranks)) && multiset(b.ranks) == multiset(SortBy(RankLe, b.ranks));
      assert multiset(a.specials) == multiset(SortBy(SpecialLe, a.specials)) && multiset(b.specials) == multiset(SortBy(SpecialLe, b.specials));
    }
    if SameDefinition(a, b) {
      SortingIgnoresOrder(a, b);
    }
  }

  lemma SortingIgnoresOrder(a: Snapshot, b: Snapshot)
    requires SameDefinition(a, b)
    ensures SortBy(RankLe, a.ranks) == SortBy(RankLe, b.ranks) && SortBy(SpecialLe, a.specials) == SortBy(SpecialLe, b.specials)
  {
    OrdersAreTotal();
    hide RankLe, SpecialLe, SortBy;
    SortByIsSorted(RankLe, a.ranks);
    SortByIsSorted(RankLe, b.ranks);
    SortedIsUnique(RankLe, SortBy(RankLe, a.ranks), SortBy(RankLe, b.ranks));
    SortByIsSorted(SpecialLe, a.specials);
    SortByIsSorted(SpecialLe, b.specials);
    SortedIsUnique(SpecialLe, SortBy(SpecialLe, a.specials), SortBy(SpecialLe, b.specials));
  }
}
