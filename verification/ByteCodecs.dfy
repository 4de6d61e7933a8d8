/** Byte strings: fixed-width integers, length-prefixed framing, UTF-8 and base64url. */
module ByteCodecs {
  import opened Outcomes

  type Byte = b: int | 0 <= b < 256
  type Bytes = seq<Byte>

  // ---- Eight bytes, most significant first

  const WORD := 0x1_0000_0000_0000_0000

  function BigEndian(n: nat, width: nat): (b: Bytes)
    ensures |b| == width
  {
    if width == 0 then [] else BigEndian(n / 256, width - 1) + [n % 256]
  }

  function BigEndianValue(b: Bytes): nat {
    if b == [] then 0 else BigEndianValue(b[..|b| - 1]) * 256 + b[|b| - 1]
  }

  function Power256(width: nat): nat { if width == 0 then 1 else 256 * Power256(width - 1) }

  lemma {:induction false} BigEndianRoundTrip(n: nat, width: nat)
    requires n < Power256(width)
    ensures BigEndianValue(BigEndian(n, width)) == n
    decreases width
  {
    if width > 0 {
      BigEndianRoundTrip(n / 256, width - 1);
      assert BigEndian(n, width)[..width - 1] == BigEndian(n / 256, width - 1);
    }
  }

  function Be8(n: nat): (b: Bytes)
    ensures |b| == 8
  {
    BigEndian(n, 8)
  }

  lemma WordIsEightBytes()
    ensures Power256(8) == WORD
  {}

  /** Equal streams that start with eight-byte words start with the same word. */
  lemma Be8PrefixFree(a: nat, x: Bytes, b: nat, y: Bytes)
    requires a < WORD && b < WORD && Be8(a) + x == Be8(b) + y
    ensures a == b && x == y
  {
    WordIsEightBytes();
    BigEndianRoundTrip(a, 8);
    BigEndianRoundTrip(b, 8);
    SplitEqual(Be8(a), x, Be8(b), y);
  }

  lemma SplitEqual<T>(a: seq<T>, x: seq<T>, b: seq<T>, y: seq<T>)
    requires |a| == |b| && a + x == b + y
    ensures a == b && x == y
  {
    assert (a + x)[..|a|] == a && (b + y)[..|b|] == b;
    assert (a + x)[|a|..] == x && (b + y)[|b|..] == y;
  }

  /** A byte string behind its length. */
  function Sized(v: Bytes): Bytes { Be8(|v|) + v }

  lemma SizedPrefixFree(a: Bytes, x: Bytes, b: Bytes, y: Bytes)
    requires |a| < WORD && |b| < WORD && Sized(a) + x == Sized(b) + y
    ensures a == b && x == y
  {
    assert Sized(a) + x == Be8(|a|) + (a + x) && Sized(b) + y == Be8(|b|) + (b + y);
    Be8PrefixFree(|a|, a + x, |b|, b + y);
    SplitEqual(a, x, b, y);
  }

  // ---- UTF-8

  function Utf8Char(c: char): (r: Bytes)
    ensures 1 <= |r| <= 4
  {
    var n := c as int;
    var (high, higher) := (n / 64, n / 64 / 64);
    if n < 0x80 then [n]
    else if n < 0x800 then [0xC0 + high, 0x80 + n % 64]
    else if n < 0x1_0000 then [0xE0 + higher, 0x80 + high % 64, 0x80 + n % 64]
    else [0xF0 + higher / 64, 0x80 + higher % 64, 0x80 + high % 64, 0x80 + n % 64]
  }

  function Utf8(s: string): Bytes {
    if s == "" then [] else Utf8Char(s[0]) + Utf8(s[1..])
  }

  predicate Continues(b: Byte) { 0x80 <= b < 0xC0 }

  /** The number whose base-64 digits are a lead value and the given continuation bytes. */
  function Digits64(lead: int, tail: Bytes): int {
    if tail == [] then lead
    else
      var last: int := tail[|tail| - 1];
      Digits64(lead, tail[..|tail| - 1]) * 64 + (last - 0x80)
  }

  /** The code point at the head of a byte string, and its width: shortest form, no surrogates. */
  function DecodeOne(b: Bytes): (r: Option<(char, nat)>)
    ensures r.Some? ==> 1 <= r.value.1 <= |b|
  {
    if b == [] then None
    else if b[0] < 0x80 then Some((b[0] as char, 1))
    else
      var lead: int := b[0];
      var width := if lead < 0xC0 then 0 else if lead < 0xE0 then 2 else if lead < 0xF0 then 3 else if lead < 0xF8 then 4 else 0;
      if width == 0 || |b| < width || (exists i :: 1 <= i < width && !Continues(b[i])) then None
      else
        var n := Digits64(lead - (if width == 2 then 0xC0 else if width == 3 then 0xE0 else 0xF0), b[1..width]);
        var least := if width == 2 then 0x80 else if width == 3 then 0x800 else 0x1_0000;
        if n < least || 0xD800 <= n < 0xE000 || n >= 0x11_0000 then None else Some((n as char, width))
  }

  function Utf8Decode(b: Bytes): Option<string> {
    if b == [] then Some("")
    else match DecodeOne(b)
      case None => None
      case Some((c, width)) =>
        match Utf8Decode(b[width..])
        case None => None
        case Some(rest) => Some([c] + rest)
  }

  lemma Digits64Of(lead: int, x: Byte, y: Byte, z: Byte)
    ensures Digits64(lead, [x]) == lead * 64 + (x - 0x80)
    ensures Digits64(lead, [x, y]) == (lead * 64 + (x - 0x80)) * 64 + (y - 0x80)
    ensures Digits64(lead, [x, y, z]) == ((lead * 64 + (x - 0x80)) * 64 + (y - 0x80)) * 64 + (z - 0x80)
  {
    assert [x][..0] == [] && [x, y][..1] == [x] && [x, y, z][..2] == [x, y];
  }

  lemma DecodeOneChar(c: char, more: Bytes)
    ensures DecodeOne(Utf8Char(c) + more) == Some((c, |Utf8Char(c)|))
  {
    var n := c as int;
    var high, higher := n / 64, n / 64 / 64;
    var u := Utf8Char(c);
    var b := u + more;
    assert b[0] == u[0];
    if n < 0x80 {
    } else {
      assert b[1..|u|] == u[1..];
      assert forall i :: 1 <= i < |u| ==> Continues(u[i]) && b[i] == u[i];
      hide Digits64;
      if n < 0x800 {
        assert u[1..] == [0x80 + n % 64];
        Digits64Of(high, 0x80 + n % 64, 0, 0);
      } else if n < 0x1_0000 {
        assert u[1..] == [0x80 + high % 64, 0x80 + n % 64];
        Digits64Of(higher, 0x80 + high % 64, 0x80 + n % 64, 0);
      } else {
        assert u[1..] == [0x80 + higher % 64, 0x80 + high % 64, 0x80 + n % 64];
        Digits64Of(higher / 64, 0x80 + higher % 64, 0x80 + high % 64, 0x80 + n % 64);
      }
    }
  }

  lemma {:induction false} Utf8RoundTrip(s: string)
    ensures Utf8Decode(Utf8(s)) == Some(s)
  {
    if s != "" {
      DecodeOneChar(s[0], Utf8(s[1..]));
      Utf8RoundTrip(s[1..]);
      assert Utf8(s)[|Utf8Char(s[0])|..] == Utf8(s[1..]);
      assert s == [s[0]] + s[1..];
    }
  }

  lemma Utf8Injective(s: string, t: string)
    requires Utf8(s) == Utf8(t)
    ensures s == t
  {
    Utf8RoundTrip(s);
    Utf8RoundTrip(t);
  }

  // ---- base64url

  type Sextet = v: int | 0 <= v < 64

  function Letter(v: Sextet): char {
    if v < 26 then ('A' as int + v) as char
    else if v < 52 then ('a' as int + (v - 26)) as char
    else if v < 62 then ('0' as int + (v - 52)) as char
    else if v == 62 then '-'
    else '_'
  }

  /** The decoder maps '-' and '_' to '+' and '/' first, so it takes both alphabets. */
  function LetterValue(c: char): Option<Sextet> {
    if 'A' <= c <= 'Z' then Some(c as int - 'A' as int)
    else if 'a' <= c <= 'z' then Some(c as int - 'a' as int + 26)
    else if '0' <= c <= '9' then Some(c as int - '0' as int + 52)
    else if c == '-' || c == '+' then Some(62)
    else if c == '_' || c == '/' then Some(63)
    else None
  }

  predicate Plain(c: char) {
    LetterValue(c).Some? && c != '=' && c != '.' && (c as int) < 128 && !IsSpace(c)
  }

  lemma LetterRoundTrip(v: Sextet)
    ensures LetterValue(Letter(v)) == Some(v) && Plain(Letter(v))
  {}

  /** Groups of three bytes as groups of four six-bit values; a last group of one or two is cut. */
  function Sextets(b: Bytes): seq<Sextet> {
    if b == [] then []
    else if |b| == 1 then [b[0] / 4, b[0] % 4 * 16]
    else if |b| == 2 then [b[0] / 4, b[0] % 4 * 16 + b[1] / 16, b[1] % 16 * 4]
    else [b[0] / 4, b[0] % 4 * 16 + b[1] / 16, b[1] % 16 * 4 + b[2] / 64, b[2] % 64] + Sextets(b[3..])
  }

  function Letters(v: seq<Sextet>): string {
    if v == [] then "" else [Letter(v[0])] + Letters(v[1..])
  }

  function Pads(n: nat): string { if n == 0 then "" else ['='] + Pads(n - 1) }

  function EncodePadded(b: Bytes): string { Letters(Sextets(b)) + Pads((3 - |b| % 3) % 3) }

  function StripPadding(s: string): string {
    if s != "" && s[|s| - 1] == '=' then StripPadding(s[..|s| - 1]) else s
  }

  function Base64(b: Bytes): string { StripPadding(EncodePadded(b)) }

  /** The decoder between characters: position in the group of four, bits carried over from the
      previous character, padding characters seen. */
  datatype Carry = Carry(position: nat, bits: nat, pads: nat)
  type DecoderState = c: Carry | c.position < 4 && c.bits < 64 && (c.position == 2 ==> c.bits < 16) && (c.position == 3 ==> c.bits < 4)
    witness Carry(0, 0, 0)

  function Prepend(b: Byte, r: Option<Bytes>): Option<Bytes> {
    match r
    case None => None
    case Some(rest) => Some([b] + rest)
  }

  /** Characters outside the alphabet are skipped; the group must be complete, or padded, at the end. */
  function Decode(s: string, st: DecoderState): Option<Bytes> {
    if s == "" then if st.position == 0 then Some([]) else None
    else if s[0] == '=' then
      if st.position < 2 then Decode(s[1..], st)
      else if st.position + st.pads + 1 >= 4 then Some([])
      else Decode(s[1..], st.(pads := st.pads + 1))
    else match LetterValue(s[0])
      case None => Decode(s[1..], st)
      case Some(v) =>
        if st.position == 0 then Decode(s[1..], Carry(1, v, 0))
        else if st.position == 1 then Prepend(st.bits * 4 + v / 16, Decode(s[1..], Carry(2, v % 16, 0)))
        else if st.position == 2 then Prepend(st.bits * 16 + v / 4, Decode(s[1..], Carry(3, v % 4, 0)))
        else Prepend(st.bits * 64 + v, Decode(s[1..], Carry(0, 0, 0)))
  }

  predicate IsSpace(c: char) {
    var n := c as int;
    n == 32 || 9 <= n <= 13 || 28 <= n <= 31 || n == 133 || n == 160 || n == 0x1680 || 0x2000 <= n <= 0x200A
    || n == 0x2028 || n == 0x2029 || n == 0x202F || n == 0x205F || n == 0x3000
  }

  /** Restores the padding and decodes; spaces, emptiness and text outside ASCII are refused. */
  function Unbase64(s: string): Option<Bytes> {
    if s == "" || (exists c :: c in s && (IsSpace(c) || c as int >= 128)) then None
    else Decode(s + Pads((4 - |s| % 4) % 4), Carry(0, 0, 0))
  }

  lemma {:induction false} LettersArePlain(v: seq<Sextet>)
    ensures |Letters(v)| == |v| && forall c :: c in Letters(v) ==> Plain(c)
  {
    hide Plain, Letter, LetterValue;
    if v != [] {
      LetterRoundTrip(v[0]);
      LettersArePlain(v[1..]);
    }
  }

  lemma {:induction false} SextetsFillGroups(b: Bytes)
    ensures (|Sextets(b)| + (3 - |b| % 3) % 3) % 4 == 0
    ensures b != [] ==> Sextets(b) != []
  {
    if |b| > 2 {
      SextetsFillGroups(b[3..]);
    }
  }

  lemma {:induction false} StripPads(s: string, n: nat)
    requires s == "" || s[|s| - 1] != '='
    ensures StripPadding(s + Pads(n)) == s
    decreases n
  {
    if n == 0 {
      assert s + Pads(n) == s;
    } else {
      PadsEnd(n - 1);
      assert (s + Pads(n))[..|s| + n - 1] == s + Pads(n - 1);
      StripPads(s, n - 1);
    }
  }

  lemma {:induction false} PadsEnd(n: nat)
    ensures Pads(n + 1) == Pads(n) + "=" && |Pads(n)| == n
  {
    if n > 0 {
      PadsEnd(n - 1);
    }
  }

  lemma DecodeLetter(v: Sextet, s: string, bits: nat, position: nat)
    requires position < 4 && bits < 64 && (position == 2 ==> bits < 16) && (position == 3 ==> bits < 4)
    ensures Decode([Letter(v)] + s, Carry(position, bits, 0)) ==
            if position == 0 then Decode(s, Carry(1, v, 0))
            else if position == 1 then Prepend(bits * 4 + v / 16, Decode(s, Carry(2, v % 16, 0)))
            else if position == 2 then Prepend(bits * 16 + v / 4, Decode(s, Carry(3, v % 4, 0)))
            else Prepend(bits * 64 + v, Decode(s, Carry(0, 0, 0)))
  {}

  lemma DecodePad(n: nat, bits: nat)
    requires (n == 1 && bits < 4) || (n == 2 && bits < 16)
    ensures Decode(Pads(n), Carry(4 - n, bits, 0)) == Some([])
  {}

  lemma LettersCons(v: Sextet, rest: seq<Sextet>, pads: string)
    ensures Letters([v] + rest) + pads == [Letter(v)] + (Letters(rest) + pads)
  {}

  lemma LettersOfFour(s0: Sextet, s1: Sextet, s2: Sextet, s3: Sextet, rest: seq<Sextet>, pads: string)
    ensures Letters([s0, s1, s2, s3] + rest) + pads
            == [Letter(s0)] + ([Letter(s1)] + ([Letter(s2)] + ([Letter(s3)] + (Letters(rest) + pads))))
  {
    hide Letter, Letters;
    assert [s0, s1, s2, s3] + rest == [s0] + ([s1] + ([s2] + ([s3] + rest)));
    LettersCons(s0, [s1] + ([s2] + ([s3] + rest)), pads);
    LettersCons(s1, [s2] + ([s3] + rest), pads);
    LettersCons(s2, [s3] + rest, pads);
    LettersCons(s3, rest, pads);
  }

  /** A whole group of four letters decodes to its three bytes. */
  lemma DecodeGroup(x: Byte, y: Byte, z: Byte, more: string)
    ensures Decode([Letter(x / 4)] + ([Letter(x % 4 * 16 + y / 16)] + ([Letter(y % 16 * 4 + z / 64)] + ([Letter(z % 64)] + more))), Carry(0, 0, 0))
            == Prepend(x, Prepend(y, Prepend(z, Decode(more, Carry(0, 0, 0)))))
  {
    hide Decode, Prepend, Letter;
    var s0, s1, s2, s3 := x / 4, x % 4 * 16 + y / 16, y % 16 * 4 + z / 64, z % 64;
    var t3 := [Letter(s3)] + more;
    var t2 := [Letter(s2)] + t3;
    var t1 := [Letter(s1)] + t2;
    DecodeLetter(s0, t1, 0, 0);
    DecodeLetter(s1, t2, s0, 1);
    DecodeLetter(s2, t3, s1 % 16, 2);
    DecodeLetter(s3, more, s2 % 4, 3);
  }

  lemma DecodeLastOne(x: Byte)
    ensures Decode(Letters([x / 4, x % 4 * 16]) + Pads(2), Carry(0, 0, 0)) == Some([x])
  {
    var s0, s1 := x / 4, x % 4 * 16;
    assert [s0, s1] == [s0] + ([s1] + []);
    LettersCons(s0, [s1] + [], Pads(2));
    LettersCons(s1, [], Pads(2));
    assert Letters([]) + Pads(2) == Pads(2);
    DecodePad(2, 0);
    hide Decode, Letter, Pads, Letters;
    DecodeLetter(s0, [Letter(s1)] + Pads(2), 0, 0);
    DecodeLetter(s1, Pads(2), s0, 1);
    var none: Bytes := [];
    assert s1 % 16 == 0 && s0 * 4 + s1 / 16 == x && [x] + none == [x];
  }

  lemma DecodeLastTwo(x: Byte, y: Byte)
    ensures Decode(Letters([x / 4, x % 4 * 16 + y / 16, y % 16 * 4]) + Pads(1), Carry(0, 0, 0)) == Some([x, y])
  {
    var s0, s1, s2 := x / 4, x % 4 * 16 + y / 16, y % 16 * 4;
    assert [s0, s1, s2] == [s0] + ([s1] + ([s2] + []));
    LettersCons(s0, [s1] + ([s2] + []), Pads(1));
    LettersCons(s1, [s2] + [], Pads(1));
    LettersCons(s2, [], Pads(1));
    assert Letters([]) + Pads(1) == Pads(1);
    DecodePad(1, 0);
    hide Decode, Letter, Pads, Letters;
    DecodeLetter(s0, [Letter(s1)] + ([Letter(s2)] + Pads(1)), 0, 0);
    DecodeLetter(s1, [Letter(s2)] + Pads(1), s0, 1);
    DecodeLetter(s2, Pads(1), s1 % 16, 2);
    var none: Bytes := [];
    assert s2 % 4 == 0 && s0 * 4 + s1 / 16 == x && s1 % 16 * 16 + s2 / 4 == y && [x] + ([y] + none) == [x, y];
  }

  lemma {:induction false} DecodePadded(b: Bytes)
    ensures Decode(EncodePadded(b), Carry(0, 0, 0)) == Some(b)
  {
    hide Letter, Decode;
    if |b| > 2 {
      var rest := b[3..];
      DecodePadded(rest);
      LettersOfFour(b[0] / 4, b[0] % 4 * 16 + b[1] / 16, b[1] % 16 * 4 + b[2] / 64, b[2] % 64, Sextets(rest), Pads((3 - |b| % 3) % 3));
      DecodeGroup(b[0], b[1], b[2], EncodePadded(rest));
      assert |rest| % 3 == |b| % 3;
      assert [b[0]] + ([b[1]] + ([b[2]] + rest)) == b;
    } else if |b| == 1 {
      DecodeLastOne(b[0]);
      assert b == [b[0]];
    } else if |b| == 2 {
      DecodeLastTwo(b[0], b[1]);
      assert b == [b[0], b[1]];
    } else {
      DecodeNothing();
    }
  }

  lemma DecodeNothing()
    ensures Decode(EncodePadded([]), Carry(0, 0, 0)) == Some([])
  {}

  /** base64url without padding, and back: the identity on every byte string but the empty one, whose
      text is refused. */
  lemma Base64RoundTrip(b: Bytes)
    ensures Unbase64(Base64(b)) == if b == [] then None else Some(b)
    ensures (Base64(b) == "" <==> b == []) && forall c :: c in Base64(b) ==> Plain(c)
  {
    if b == [] {
      EmptyIsEmpty();
    } else {
      NonEmptyRoundTrip(b);
    }
  }

  lemma EmptyIsEmpty()
    ensures Base64([]) == ""
  {}

  lemma NonEmptyRoundTrip(b: Bytes)
    requires b != []
    ensures Unbase64(Base64(b)) == Some(b)
    ensures Base64(b) != "" && forall c :: c in Base64(b) ==> Plain(c)
  {
    hide Sextets, Letters, Pads, Decode, LetterValue, IsSpace;
    var s := Letters(Sextets(b));
    SextetsFillGroups(b);
    LettersArePlain(Sextets(b));
    assert s[|s| - 1] in s;
    StripPads(s, (3 - |b| % 3) % 3);
    DecodePadded(b);
    assert Base64(b) == s;
    assert (4 - |s| % 4) % 4 == (3 - |b| % 3) % 3;
  }
}
