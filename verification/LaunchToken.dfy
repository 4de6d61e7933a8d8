/** The launch confirmation token: canonical JSON, MAC, base64url, and back. */
module LaunchToken {
  import opened Outcomes
  import opened Sorting
  import opened ByteCodecs
  import EvidenceJson

  datatype Scalar = Str(text: string) | Int(value: int) | Bool(flag: bool)
  type Dict = map<string, Scalar>
  datatype Item = Item(key: string, value: Scalar)

  // ---- Canonical JSON of a flat dictionary

  function DigitChar(d: nat): char
    requires d < 10
  {
    ('0' as int + d) as char
  }

  function Digits(n: nat): string { if n < 10 then [DigitChar(n)] else Digits(n / 10) + [DigitChar(n % 10)] }

  function IntText(n: int): string { if n < 0 then "-" + Digits(-n) else Digits(n) }

  function ScalarText(s: Scalar): string {
    match s
    case Str(text) => EvidenceJson.Quote(text)
    case Int(n) => IntText(n)
    case Bool(flag) => if flag then "true" else "false"
  }

  function ItemText(i: Item): string { EvidenceJson.Quote(i.key) + ":" + ScalarText(i.value) }

  /** The members of an object and its closing brace. */
  function MembersText(items: seq<Item>): string
    requires items != []
  {
    ItemText(items[0]) + if |items| == 1 then "}" else "," + MembersText(items[1..])
  }

  function ObjectText(items: seq<Item>): string { if items == [] then "{}" else "{" + MembersText(items) }

  lemma LeastKey(keys: set<string>) returns (k: string)
    requires keys != {}
    ensures k in keys && forall j :: j in keys ==> StringLe(k, j)
  {
    k :| k in keys;
    if keys != {k} {
      var rest := keys - {k};
      assert rest != {};
      var l := LeastKey(rest);
      StringLeTotal(k, l);
      StringLeTotal(k, k);
      var least := if StringLe(k, l) then k else l;
      forall j | j in keys ensures StringLe(least, j) {
        if j != k {
          StringLeTransitive(least, l, j);
        }
      }
      k := least;
    } else {
      StringLeTotal(k, k);
    }
  }

  ghost function SortedItems(m: Dict): seq<Item>
    decreases |m|
  {
    if m == map[] then []
    else
      var k := First(m.Keys);
      [Item(k, m[k])] + SortedItems(m - {k})
  }

  ghost function First(keys: set<string>): (k: string)
    requires keys != {}
    ensures k in keys && forall j :: j in keys ==> StringLe(k, j)
  {
    FirstExists(keys);
    var k :| k in keys && forall j :: j in keys ==> StringLe(k, j);
    k
  }

  lemma FirstExists(keys: set<string>)
    requires keys != {}
    ensures exists k :: k in keys && forall j :: j in keys ==> StringLe(k, j)
  {
    var k := LeastKey(keys);
  }

  // ---- Parsing

  predicate IsDigit(c: char) { '0' <= c <= '9' }

  function HexValue(c: char): Option<nat> {
    if '0' <= c <= '9' then Some(c as int - '0' as int)
    else if 'a' <= c <= 'f' then Some(c as int - 'a' as int + 10)
    else if 'A' <= c <= 'F' then Some(c as int - 'A' as int + 10)
    else None
  }

  /** The character an escape stands for, and the escape's width. */
  function UnescapeOne(t: string): (r: Option<(char, nat)>)
    requires t != ""
    ensures r.Some? ==> 2 <= r.value.1 <= |t|
  {
    if |t| < 2 then None
    else if t[1] == '\"' || t[1] == '\\' || t[1] == '/' then Some((t[1], 2))
    else if t[1] == 'b' then Some((8 as char, 2))
    else if t[1] == 'f' then Some((12 as char, 2))
    else if t[1] == 'n' then Some(('\n', 2))
    else if t[1] == 'r' then Some(('\r', 2))
    else if t[1] == 't' then Some(('\t', 2))
    else if t[1] == 'u' && |t| >= 6 then
      match (HexValue(t[2]), HexValue(t[3]), HexValue(t[4]), HexValue(t[5]))
      case (Some(a), Some(b), Some(c), Some(d)) =>
        var n := a * 4096 + b * 256 + c * 16 + d;
        if 0xD800 <= n < 0xE000 || n >= 0x1_0000 then None else Some((n as char, 6))
      case _ => None
    else None
  }

  function Prefixed(c: char, r: Option<(string, string)>): (p: Option<(string, string)>)
    ensures p.Some? <==> r.Some?
    ensures r.Some? ==> p.value.1 == r.value.1
  {
    match r
    case None => None
    case Some((s, rest)) => Some(([c] + s, rest))
  }

  /** The rest of a string literal, behind its opening quote. */
  function ParseChars(t: string): (r: Option<(string, string)>)
    ensures r.Some? ==> |r.value.1| < |t|
  {
    if t == "" then None
    else if t[0] == '\"' then Some(("", t[1..]))
    else if t[0] == '\\' then
      match UnescapeOne(t)
      case None => None
      case Some((c, width)) => Prefixed(c, ParseChars(t[width..]))
    else if t[0] as int < 32 then None
    else Prefixed(t[0], ParseChars(t[1..]))
  }

  function DigitCount(t: string): (n: nat)
    ensures n <= |t|
  {
    if t != "" && IsDigit(t[0]) then 1 + DigitCount(t[1..]) else 0
  }

  function DecimalValue(t: string): nat {
    if t == "" then 0
    else
      var last := t[|t| - 1];
      DecimalValue(t[..|t| - 1]) * 10 + if IsDigit(last) then last as int - '0' as int else 0
  }

  /** An unsigned integer literal: no leading zero, no fraction, no exponent. */
  function ParseNat(t: string): (r: Option<(nat, string)>)
    ensures r.Some? ==> |r.value.1| < |t|
  {
    var n := DigitCount(t);
    if n == 0 || (n > 1 && t[0] == '0') || (n < |t| && (t[n] == '.' || t[n] == 'e' || t[n] == 'E')) then None
    else Some((DecimalValue(t[..n]), t[n..]))
  }

  function ParseScalar(t: string): (r: Option<(Scalar, string)>)
    ensures r.Some? ==> |r.value.1| < |t|
  {
    if t == "" then None
    else if t[0] == '\"' then
      match ParseChars(t[1..])
      case None => None
      case Some((s, rest)) => Some((Str(s), rest))
    else if t[0] == '-' then
      match ParseNat(t[1..])
      case None => None
      case Some((n, rest)) => Some((Int(0 - n), rest))
    else if |t| >= 4 && t[..4] == "true" then Some((Bool(true), t[4..]))
    else if |t| >= 5 && t[..5] == "false" then Some((Bool(false), t[5..]))
    else match ParseNat(t)
      case None => None
      case Some((n, rest)) => Some((Int(n), rest))
  }

  function SkipSpace(t: string): (r: string)
    ensures |r| <= |t|
  {
    if t != "" && (t[0] == ' ' || t[0] == '\t' || t[0] == '\n' || t[0] == '\r') then SkipSpace(t[1..]) else t
  }

  /** One `"key": value`. */
  function ParseItem(t: string): (r: Option<(Item, string)>)
    ensures r.Some? ==> |r.value.1| < |t|
  {
    if t == "" || t[0] != '\"' then None
    else match ParseChars(t[1..])
      case None => None
      case Some((key, rest)) =>
        var afterKey := SkipSpace(rest);
        if afterKey == "" || afterKey[0] != ':' then None
        else match ParseScalar(SkipSpace(afterKey[1..]))
          case None => None
          case Some((value, more)) => Some((Item(key, value), more))
  }

  /** Members up to and including the closing brace. */
  function ParseMembers(t: string): Option<(seq<Item>, string)>
    decreases |t|
  {
    match ParseItem(t)
    case None => None
    case Some((item, rest)) =>
      var next := SkipSpace(rest);
      if next == "" then None
      else if next[0] == '}' then Some(([item], next[1..]))
      else if next[0] != ',' then None
      else match ParseMembers(SkipSpace(next[1..]))
        case None => None
        case Some((items, more)) => Some(([item] + items, more))
  }

  /** Repeated keys keep their last value. */
  function DictOf(items: seq<Item>): Dict {
    if items == [] then map[] else DictOf(items[..|items| - 1])[items[|items| - 1].key := items[|items| - 1].value]
  }

  function ParseObject(text: string): Option<Dict> {
    var t := SkipSpace(text);
    if t == "" || t[0] != '{' then None
    else
      var inner := SkipSpace(t[1..]);
      if inner != "" && inner[0] == '}' then if SkipSpace(inner[1..]) == "" then Some(map[]) else None
      else match ParseMembers(inner)
        case None => None
        case Some((items, rest)) => if SkipSpace(rest) == "" then Some(DictOf(items)) else None
  }

  // ---- Printing and parsing are inverse

  lemma {:induction false} EscapeFront(c: char, s: string)
    ensures EvidenceJson.Escape([c] + s) == EvidenceJson.EscapeChar(c) + EvidenceJson.Escape(s)
    decreases |s|
  {
    hide EvidenceJson.EscapeChar;
    if s == "" {
      assert [c] + s == [c] && [c][..0] == "";
      assert EvidenceJson.Escape([c]) == EvidenceJson.Escape("") + EvidenceJson.EscapeChar(c);
    } else {
      var shorter := s[..|s| - 1];
      EscapeFront(c, shorter);
      assert ([c] + s)[..|s|] == [c] + shorter;
    }
  }

  lemma ParseEscaped(c: char, t: string)
    ensures ParseChars(EvidenceJson.EscapeChar(c) + t) == Prefixed(c, ParseChars(t))
  {}

  lemma ParseClosingQuote(rest: string)
    ensures ParseChars("\"" + rest) == Some(("", rest))
  {}

  lemma {:induction false} ParseQuoted(s: string, rest: string)
    ensures ParseChars(EvidenceJson.Escape(s) + ("\"" + rest)) == Some((s, rest))
  {
    hide EvidenceJson.EscapeChar, ParseChars, UnescapeOne;
    if s == "" {
      ParseClosingQuote(rest);
      assert EvidenceJson.Escape(s) + ("\"" + rest) == "\"" + rest;
    } else {
      var tail := s[1..];
      assert s == [s[0]] + tail;
      EscapeFront(s[0], tail);
      ParseEscaped(s[0], EvidenceJson.Escape(tail) + ("\"" + rest));
      ParseQuoted(tail, rest);
      assert EvidenceJson.Escape(s) + ("\"" + rest)
        == EvidenceJson.EscapeChar(s[0]) + (EvidenceJson.Escape(tail) + ("\"" + rest));
    }
  }

  predicate EndsNumber(rest: string) {
    rest == "" || !(IsDigit(rest[0]) || rest[0] == '.' || rest[0] == 'e' || rest[0] == 'E')
  }

  lemma {:induction false} DigitsShape(n: nat)
    ensures |Digits(n)| >= 1 && (forall i :: 0 <= i < |Digits(n)| ==> IsDigit(Digits(n)[i]))
    ensures DecimalValue(Digits(n)) == n
    ensures n > 0 ==> Digits(n)[0] != '0'
    ensures n == 0 ==> |Digits(n)| == 1
  {
    if n < 10 {
      assert Digits(n)[..0] == "";
    } else {
      DigitsShape(n / 10);
      assert Digits(n)[..|Digits(n)| - 1] == Digits(n / 10);
    }
  }

  lemma {:induction false} DigitCountOf(d: string, rest: string)
    requires forall i :: 0 <= i < |d| ==> IsDigit(d[i])
    requires EndsNumber(rest)
    ensures DigitCount(d + rest) == |d|
  {
    if d == "" {
      assert d + rest == rest;
    } else {
      assert (d + rest)[1..] == d[1..] + rest;
      DigitCountOf(d[1..], rest);
    }
  }

  lemma ParseDigits(n: nat, rest: string)
    requires EndsNumber(rest)
    ensures ParseNat(Digits(n) + rest) == Some((n, rest))
  {
    DigitsShape(n);
    DigitCountOf(Digits(n), rest);
    assert (Digits(n) + rest)[..|Digits(n)|] == Digits(n) && (Digits(n) + rest)[|Digits(n)|..] == rest;
  }

  lemma ParsePrintedText(text: string, rest: string)
    ensures var t := EvidenceJson.Quote(text) + rest;
            ParseScalar(t) == Some((Str(text), rest)) && SkipSpace(t) == t && t != ""
  {
    var t := EvidenceJson.Quote(text) + rest;
    assert t == "\"" + (EvidenceJson.Escape(text) + ("\"" + rest));
    assert t[1..] == EvidenceJson.Escape(text) + ("\"" + rest);
    hide ParseChars;
    ParseQuoted(text, rest);
  }

  lemma ParsePrintedInt(n: int, rest: string)
    requires EndsNumber(rest)
    ensures var t := IntText(n) + rest;
            ParseScalar(t) == Some((Int(n), rest)) && SkipSpace(t) == t && t != ""
  {
    hide ParseNat, Digits, EndsNumber, DecimalValue, ParseChars;
    var d := Digits(if n < 0 then -n else n);
    var t := IntText(n) + rest;
    DigitsShape(if n < 0 then -n else n);
    ParseDigits(if n < 0 then -n else n, rest);
    if n < 0 {
      assert t[0] == '-' && t[1..] == d + rest;
    } else {
      assert IsDigit(t[0]) by { assert t[0] == d[0]; }
      assert |t| >= 4 ==> t[..4][0] == t[0];
      assert |t| >= 5 ==> t[..5][0] == t[0];
    }
  }

  lemma ParsePrintedBool(flag: bool, rest: string)
    ensures var t := ScalarText(Bool(flag)) + rest;
            ParseScalar(t) == Some((Bool(flag), rest)) && SkipSpace(t) == t && t != ""
  {}

  lemma ParsePrinted(s: Scalar, rest: string)
    requires EndsNumber(rest)
    ensures ParseScalar(ScalarText(s) + rest) == Some((s, rest))
    ensures SkipSpace(ScalarText(s) + rest) == ScalarText(s) + rest
  {
    hide ParseScalar, EndsNumber, SkipSpace;
    match s
    case Str(text) => ParsePrintedText(text, rest);
    case Int(n) => ParsePrintedInt(n, rest);
    case Bool(flag) => ParsePrintedBool(flag, rest);
  }

  lemma ParseItemText(i: Item, rest: string)
    requires EndsNumber(rest)
    ensures ParseItem(ItemText(i) + rest) == Some((i, rest))
    ensures ItemText(i) != "" && ItemText(i)[0] == '\"'
  {
    hide ParseChars, ParseScalar, ScalarText;
    var value := ScalarText(i.value) + rest;
    var t := ItemText(i) + rest;
    assert t == "\"" + (EvidenceJson.Escape(i.key) + ("\"" + (":" + value)));
    assert t[1..] == EvidenceJson.Escape(i.key) + ("\"" + (":" + value));
    ParseQuoted(i.key, ":" + value);
    ParsePrinted(i.value, rest);
    assert (":" + value)[1..] == value;
  }

  lemma {:induction false} ParseMembersText(items: seq<Item>, rest: string)
    requires items != []
    ensures ParseMembers(MembersText(items) + rest) == Some((items, rest))
    ensures MembersText(items) != "" && MembersText(items)[0] == '\"'
    decreases |items|
  {
    hide ParseItem, ItemText;
    if |items| == 1 {
      ParseItemText(items[0], "}" + rest);
      assert MembersText(items) + rest == ItemText(items[0]) + ("}" + rest);
      assert ("}" + rest)[1..] == rest;
      assert items == [items[0]];
    } else {
      var tail := MembersText(items[1..]) + rest;
      ParseItemText(items[0], "," + tail);
      ParseMembersText(items[1..], rest);
      assert MembersText(items) + rest == ItemText(items[0]) + ("," + tail);
      assert ("," + tail)[1..] == tail && SkipSpace(tail) == tail;
      assert items == [items[0]] + items[1..];
    }
  }

  lemma {:induction false} DictOfFront(i: Item, items: seq<Item>)
    requires forall j :: 0 <= j < |items| ==> items[j].key != i.key
    ensures DictOf([i] + items) == map[i.key := i.value] + DictOf(items)
    decreases |items|
  {
    if items == [] {
      assert [i] + items == [i] && [i][..0] == [];
    } else {
      var last := |items| - 1;
      DictOfFront(i, items[..last]);
      assert ([i] + items)[..last + 1] == [i] + items[..last];
      assert ([i] + items)[last + 1] == items[last];
    }
  }

  predicate KeysIn(items: seq<Item>, keys: set<string>) {
    forall i :: 0 <= i < |items| ==> items[i].key in keys
  }

  lemma DictStep(m: Dict, k: string, items: seq<Item>)
    requires k in m && DictOf(items) == m - {k} && KeysIn(items, (m - {k}).Keys)
    ensures DictOf([Item(k, m[k])] + items) == m && KeysIn([Item(k, m[k])] + items, m.Keys)
  {
    hide DictOf;
    DictOfFront(Item(k, m[k]), items);
    assert map[k := m[k]] + (m - {k}) == m;
  }

  lemma {:induction false} SortedItemsAreTheDict(m: Dict)
    ensures DictOf(SortedItems(m)) == m && KeysIn(SortedItems(m), m.Keys)
    decreases |m|
  {
    hide StringLe, First, KeysIn;
    if m == map[] {
      NoItems();
      assert SortedItems(m) == [] && m.Keys == {};
    } else {
      var k := First(m.Keys);
      SortedItemsAreTheDict(m - {k});
      DictStep(m, k, SortedItems(m - {k}));
    }
  }

  lemma NoItems()
    ensures DictOf([]) == map[] && KeysIn([], {})
  {}

  /** Reading the canonical text of a dictionary gives the dictionary. */
  lemma CanonicalJsonRoundTrip(m: Dict)
    ensures ParseObject(ObjectText(SortedItems(m))) == Some(m)
  {
    SortedItemsAreTheDict(m);
    hide SortedItems, ParseMembers, MembersText;
    var items := SortedItems(m);
    var t := ObjectText(items);
    assert SkipSpace(t) == t;
    if items != [] {
      ParseMembersText(items, "");
      assert MembersText(items) + "" == MembersText(items) && t[1..] == MembersText(items);
    } else {
      assert t[1..] == "}" && "}"[1..] == "";
    }
  }

  predicate KeysSorted(items: seq<Item>) {
    forall i, j :: 0 <= i < j < |items| ==> StringLe(items[i].key, items[j].key)
  }

  /** The canonical text lists the keys in order. */
  lemma {:induction false} ItemsAreSorted(m: Dict)
    ensures KeysSorted(SortedItems(m))
    decreases |m|
  {
    hide StringLe, First, DictOf;
    if m != map[] {
      var k := First(m.Keys);
      var rest := SortedItems(m - {k});
      ItemsAreSorted(m - {k});
      SortedItemsAreTheDict(m - {k});
      forall j | 0 <= j < |rest| ensures StringLe(k, rest[j].key) {
        assert rest[j].key in m.Keys;
      }
    }
  }

  // ---- Issuing and verifying

  function ScopeKeys(): set<string> { {"v", "g", "m", "sh", "ah", "ph", "ih", "eh"} }

  function ValidatorKeys(): set<string> { {"vp", "vm", "vr", "vs", "pp", "pv", "cv", "ps"} }

  function ExtractionKeys(): set<string> { {"xv", "xp", "xm", "xr", "xt", "xn", "xc", "xi", "xo", "xk", "xe"} }

  function WideKeys(): set<string> { {"xen", "xrp", "xfs", "xip", "xop"} }

  function RolloutKeys(): set<string> { {"ep", "es", "rc", "rq", "ap", "rg", "kv", "km"} }

  function TokenKeys(): set<string> { {"te", "en", "rp", "fs", "it", "ot", "mb", "mc", "mw", "ma"} }

  function LimitKeys(): set<string> { {"pt", "sw", "ls", "cg", "ip", "op", "bl", "ec", "vc", "tc"} }

  function SnapshotKeys(): set<string> {
    ScopeKeys() + ValidatorKeys() + ExtractionKeys() + WideKeys() + RolloutKeys() + TokenKeys() + LimitKeys()
  }

  lemma ShortKeys(k: string)
    ensures k in ScopeKeys() ==> |k| <= 2
    ensures k in ValidatorKeys() ==> |k| <= 2
    ensures k in ExtractionKeys() ==> |k| <= 2
  {}

  lemma MoreShortKeys(k: string)
    ensures k in RolloutKeys() ==> |k| <= 2
    ensures k in TokenKeys() ==> |k| <= 2
    ensures k in LimitKeys() ==> |k| <= 2
  {}

  lemma WideKeysStartAlike(k: string)
    ensures k in WideKeys() ==> k[..1] == "x"
  {}

  lemma TimesAreNotSnapshotKeys()
    ensures "iat" !in SnapshotKeys() && "exp" !in SnapshotKeys()
  {
    hide ScopeKeys, ValidatorKeys, ExtractionKeys, WideKeys, RolloutKeys, TokenKeys, LimitKeys;
    ShortKeys("iat"); ShortKeys("exp");
    MoreShortKeys("iat"); MoreShortKeys("exp");
    WideKeysStartAlike("iat"); WideKeysStartAlike("exp");
    assert |"iat"| == 3 && |"exp"| == 3 && "iat"[..1][0] == 'i' && "exp"[..1][0] == 'e' && "x"[0] == 'x';
  }

  const MAX_TOKEN := 2048

  type Mac = b: Bytes | |b| == 32 witness seq(32, _ => 0)

  /** Keyed digest, NFC normalisation, and the configured lifetime in seconds. */
  datatype Codec = Codec(mac: Bytes -> Mac, nfc: string -> string, lifetime: int)

  function WithTimes(codec: Codec, snapshot: Dict, now: int): Dict {
    snapshot["iat" := Int(now)]["exp" := Int(now + codec.lifetime)]
  }

  ghost function Issue(codec: Codec, snapshot: Dict, now: int): Result<string> {
    if snapshot.Keys != SnapshotKeys() || (exists k :: k in snapshot && snapshot[k].Bool?) then Err("cost_preview_changed")
    else
      var body := Utf8(codec.nfc(ObjectText(SortedItems(WithTimes(codec, snapshot, now)))));
      var token := Base64(body) + "." + Base64(codec.mac(body));
      if |token| > MAX_TOKEN then Err("cost_preview_changed") else Ok(token)
  }

  /** The text in front of the first dot and the text behind it. */
  function SplitDot(t: string): Option<(string, string)> {
    if t == "" then None
    else if t[0] == '.' then Some(("", t[1..]))
    else match SplitDot(t[1..])
      case None => None
      case Some((before, after)) => Some(([t[0]] + before, after))
  }

  /** The program's equality of scalars: booleans are the integers 0 and 1. */
  function Numeric(s: Scalar): Option<int> {
    match s
    case Str(_) => None
    case Int(n) => Some(n)
    case Bool(flag) => Some(if flag then 1 else 0)
  }

  predicate ScalarsEqual(a: Scalar, b: Scalar) {
    a == b || (Numeric(a).Some? && Numeric(a) == Numeric(b))
  }

  predicate DictsEqual(a: Dict, b: Dict) {
    a.Keys == b.Keys && forall k :: k in a ==> ScalarsEqual(a[k], b[k])
  }

  predicate TimesHold(codec: Codec, payload: Dict, now: int)
    requires "iat" in payload && "exp" in payload
  {
    var issued, expires := Numeric(payload["iat"]), Numeric(payload["exp"]);
    issued.Some? && expires.Some? && issued.value <= now < expires.value && expires.value - issued.value == codec.lifetime
  }

  function Verify(codec: Codec, token: string, expected: Dict, now: int): Result<Dict> {
    if |token| > MAX_TOKEN then Err("cost_preview_changed")
    else match SplitDot(token)
      case None => Err("cost_preview_changed")
      case Some((encodedBody, encodedSignature)) =>
        match (Unbase64(encodedBody), Unbase64(encodedSignature))
        case (Some(body), Some(signature)) =>
          if codec.mac(body) != signature then Err("cost_preview_changed") else VerifyBody(codec, body, expected, now)
        case _ => Err("cost_preview_changed")
  }

  function VerifyBody(codec: Codec, body: Bytes, expected: Dict, now: int): Result<Dict> {
    match Utf8Decode(body)
    case None => Err("cost_preview_changed")
    case Some(text) =>
      match ParseObject(text)
      case None => Err("cost_preview_changed")
      case Some(payload) =>
        if payload.Keys != SnapshotKeys() + {"iat", "exp"} then Err("cost_preview_changed")
        else if !DictsEqual(payload - {"iat", "exp"}, expected) then Err("cost_preview_changed")
        else if !TimesHold(codec, payload, now) then Err("cost_preview_changed")
        else Ok(payload)
  }

  lemma {:induction false} SplitAtDot(a: string, b: string)
    requires '.' !in a
    ensures SplitDot(a + "." + b) == Some((a, b))
  {
    if a == "" {
      assert a + "." + b == "." + b && ("." + b)[1..] == b;
    } else {
      assert (a + "." + b)[1..] == a[1..] + "." + b;
      SplitAtDot(a[1..], b);
      assert a == [a[0]] + a[1..];
    }
  }

  lemma {:induction false} Utf8IsNotEmpty(s: string)
    requires s != ""
    ensures Utf8(s) != []
  {}

  lemma VerifyIssuedBody(codec: Codec, snapshot: Dict, issued: int, expected: Dict, now: int)
    requires snapshot.Keys == SnapshotKeys()
    ensures var payload := WithTimes(codec, snapshot, issued);
            VerifyBody(codec, Utf8(ObjectText(SortedItems(payload))), expected, now) ==
            if DictsEqual(snapshot, expected) && issued <= now < issued + codec.lifetime then Ok(payload)
            else Err("cost_preview_changed")
  {
    var payload := WithTimes(codec, snapshot, issued);
    TimesAreNotSnapshotKeys();
    hide SnapshotKeys, ParseObject, ObjectText, Utf8, Utf8Decode;
    Utf8RoundTrip(ObjectText(SortedItems(payload)));
    CanonicalJsonRoundTrip(payload);
    assert payload - {"iat", "exp"} == snapshot;
    assert payload.Keys == SnapshotKeys() + {"iat", "exp"};
  }

  /** A token verifies exactly while it is current and exactly against an equal snapshot, and then
      yields the snapshot with its times, whenever normalisation leaves its text as it is. */
  lemma VerifyOfIssue(codec: Codec, snapshot: Dict, issued: int, expected: Dict, now: int)
    requires Issue(codec, snapshot, issued).Ok?
    requires var text := ObjectText(SortedItems(WithTimes(codec, snapshot, issued))); codec.nfc(text) == text
    ensures Verify(codec, Issue(codec, snapshot, issued).value, expected, now) ==
            if DictsEqual(snapshot, expected) && issued <= now < issued + codec.lifetime then Ok(WithTimes(codec, snapshot, issued))
            else Err("cost_preview_changed")
  {
    hide ObjectText, Utf8, VerifyBody, Base64, Unbase64, SnapshotKeys, SplitDot, DictsEqual;
    var text := ObjectText(SortedItems(WithTimes(codec, snapshot, issued)));
    var body := Utf8(text);
    ObjectTextIsNotEmpty(SortedItems(WithTimes(codec, snapshot, issued)));
    Utf8IsNotEmpty(text);
    Base64RoundTrip(body);
    Base64RoundTrip(codec.mac(body));
    SplitAtDot(Base64(body), Base64(codec.mac(body)));
    VerifyIssuedBody(codec, snapshot, issued, expected, now);
  }

  lemma ObjectTextIsNotEmpty(items: seq<Item>)
    ensures ObjectText(items) != ""
  {}

  // ---- What verifies at all

  /** Two texts around the first dot of the token. */
  predicate SplitsInto(token: string, before: string, after: string) { token == before + "." + after && '.' !in before }

  lemma {:induction false} FirstDot(t: string)
    ensures SplitDot(t).None? ==> '.' !in t
    ensures SplitDot(t).Some? ==> SplitsInto(t, SplitDot(t).value.0, SplitDot(t).value.1)
  {
    if t != "" && t[0] != '.' {
      FirstDot(t[1..]);
      assert t == [t[0]] + t[1..];
    } else if t != "" {
      assert t == "." + t[1..];
    }
  }

  /** The payload is a token's: exactly the token keys, the expected snapshot, and times around now. */
  predicate PayloadIsCurrent(codec: Codec, payload: Dict, expected: Dict, now: int) {
    && payload.Keys == SnapshotKeys() + {"iat", "exp"} && expected.Keys == SnapshotKeys()
    && (forall k :: k in SnapshotKeys() ==> ScalarsEqual(payload[k], expected[k]))
    && Numeric(payload["iat"]).Some? && Numeric(payload["exp"]).Some?
    && Numeric(payload["iat"]).value <= now < Numeric(payload["exp"]).value
    && Numeric(payload["exp"]).value - Numeric(payload["iat"]).value == codec.lifetime
  }

  /** The token is authentic: what is behind its first dot decodes to the keyed digest of what is in
      front of it, and that reads as a current payload. */
  predicate Authentic(codec: Codec, token: string, before: string, after: string, payload: Dict, expected: Dict, now: int) {
    && |token| <= 2048 && SplitsInto(token, before, after)
    && Unbase64(before).Some? && Unbase64(after) == Some(codec.mac(Unbase64(before).value))
    && Utf8Decode(Unbase64(before).value).Some?
    && ParseObject(Utf8Decode(Unbase64(before).value).value) == Some(payload)
    && PayloadIsCurrent(codec, payload, expected, now)
  }

  lemma BodyIsCurrent(codec: Codec, body: Bytes, expected: Dict, now: int, payload: Dict)
    ensures VerifyBody(codec, body, expected, now) == Ok(payload) <==>
            && Utf8Decode(body).Some? && ParseObject(Utf8Decode(body).value) == Some(payload)
            && PayloadIsCurrent(codec, payload, expected, now)
  {
    TimesAreNotSnapshotKeys();
    hide SnapshotKeys, ParseObject, Utf8Decode, ScalarsEqual;
    if payload.Keys == SnapshotKeys() + {"iat", "exp"} {
      assert (payload - {"iat", "exp"}).Keys == SnapshotKeys();
    }
  }

  /** Verification accepts exactly the authentic tokens: whoever has it accepted holds the keyed digest
      of a current payload for the expected snapshot. */
  lemma VerifiesIffAuthentic(codec: Codec, token: string, expected: Dict, now: int, payload: Dict)
    ensures Verify(codec, token, expected, now) == Ok(payload) <==>
            exists before: string, after: string :: Authentic(codec, token, before, after, payload, expected, now)
  {
    hide VerifyBody, Unbase64, Utf8Decode, ParseObject, PayloadIsCurrent, SplitDot;
    FirstDot(token);
    if Verify(codec, token, expected, now) == Ok(payload) {
      var (before, after) := SplitDot(token).value;
      BodyIsCurrent(codec, Unbase64(before).value, expected, now, payload);
      assert Authentic(codec, token, before, after, payload, expected, now);
    }
    if before: string, after: string :| Authentic(codec, token, before, after, payload, expected, now) {
      SplitAtDot(before, after);
      BodyIsCurrent(codec, Unbase64(before).value, expected, now, payload);
    }
  }

  /** A snapshot is issued exactly if it has every key, no booleans, and a token of at most 2048
      characters; the token is the payload and its keyed digest, encoded, around a dot. */
  lemma IssuesIff(codec: Codec, snapshot: Dict, now: int)
    ensures var body := Utf8(codec.nfc(ObjectText(SortedItems(snapshot["iat" := Int(now)]["exp" := Int(now + codec.lifetime)]))));
            var token := Base64(body) + "." + Base64(codec.mac(body));
            && (Issue(codec, snapshot, now).Ok? <==>
                snapshot.Keys == SnapshotKeys() && (forall k :: k in snapshot ==> !snapshot[k].Bool?) && |token| <= 2048)
            && (Issue(codec, snapshot, now).Ok? ==> Issue(codec, snapshot, now).value == token)
  {
    hide SnapshotKeys, SortedItems, ObjectText, Utf8, Base64;
  }
}
