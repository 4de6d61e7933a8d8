/** JSON text of a list of string dictionaries, as the evidence window counts it. */
module EvidenceJson {
  import opened Sums

  datatype Pair = Pair(key: string, value: string)

  /** A dictionary in insertion order. */
  type Row = seq<Pair>

  function HexDigit(n: nat): char
    requires n < 16
  {
    if n < 10 then ('0' as int + n) as char else ('a' as int + (n - 10)) as char
  }

  /** String escapes of section 7 of RFC 8259; text outside ASCII is written as it is. */
  function EscapeChar(c: char): (e: string)
    ensures 1 <= |e| <= 6
  {
    if c == '\"' then "\\\""
    else if c == '\\' then "\\\\"
    else if c == '\n' then "\\n"
    else if c == '\r' then "\\r"
    else if c == '\t' then "\\t"
    else if c as int == 8 then "\\b"
    else if c as int == 12 then "\\f"
    else if c as int < 32 then "\\u00" + [HexDigit(c as int / 16), HexDigit(c as int % 16)]
    else [c]
  }

  function Escape(s: string): string {
    if s == "" then "" else Escape(s[..|s| - 1]) + EscapeChar(s[|s| - 1])
  }

  function Quote(s: string): string { "\"" + Escape(s) + "\"" }

  function PairText(p: Pair): string { Quote(p.key) + ": " + Quote(p.value) }

  function Join(parts: seq<string>): string {
    if parts == [] then ""
    else if |parts| == 1 then parts[0]
    else parts[0] + ", " + Join(parts[1..])
  }

  function PairTexts(row: Row): seq<string> { seq(|row|, i requires 0 <= i < |row| => PairText(row[i])) }

  function RowText(row: Row): string { "{" + Join(PairTexts(row)) + "}" }

  function RowTexts(rows: seq<Row>): seq<string> { seq(|rows|, i requires 0 <= i < |rows| => RowText(rows[i])) }

  function Serialize(rows: seq<Row>): string { "[" + Join(RowTexts(rows)) + "]" }

  // ---- Lengths

  function Lengths(parts: seq<string>): seq<nat> { seq(|parts|, i requires 0 <= i < |parts| => |parts[i]|) }

  function Gaps(n: nat): nat { if n == 0 then 0 else 2 * (n - 1) }

  lemma {:induction false} JoinLength(parts: seq<string>)
    ensures |Join(parts)| == Sum(Lengths(parts)) + Gaps(|parts|)
  {
    if parts != [] {
      JoinLength(parts[1..]);
      assert Lengths(parts)[1..] == Lengths(parts[1..]);
    }
  }

  lemma SumOfOneMore(parts: seq<string>, more: string)
    ensures Sum(Lengths(parts + [more])) == Sum(Lengths(parts)) + |more|
  {
    assert Lengths(parts + [more]) == Lengths(parts) + [|more|];
    SumAppend(Lengths(parts), [|more|]);
    assert [|more|][1..] == [];
  }

  /** One more row costs its text and a separator. */
  lemma AppendedRowLength(rows: seq<Row>, row: Row)
    ensures |Serialize(rows + [row])| == |Serialize(rows)| + |RowText(row)| + (if rows == [] then 0 else 2)
  {
    JoinLength(RowTexts(rows));
    assert RowTexts(rows + [row]) == RowTexts(rows) + [RowText(row)];
    JoinLength(RowTexts(rows) + [RowText(row)]);
    SumOfOneMore(RowTexts(rows), RowText(row));
  }

  lemma AppendedPairLength(row: Row, p: Pair)
    ensures |RowText(row + [p])| == |RowText(row)| + |PairText(p)| + (if row == [] then 0 else 2)
  {
    JoinLength(PairTexts(row));
    assert PairTexts(row + [p]) == PairTexts(row) + [PairText(p)];
    JoinLength(PairTexts(row) + [PairText(p)]);
    SumOfOneMore(PairTexts(row), PairText(p));
  }

  lemma {:induction false} UpdatedPairLength(row: Row, i: nat, p: Pair)
    requires i < |row|
    ensures |RowText(row[i := p])| == |RowText(row)| - |PairText(row[i])| + |PairText(p)|
  {
    JoinLength(PairTexts(row));
    JoinLength(PairTexts(row[i := p]));
    assert Lengths(PairTexts(row[i := p])) == Lengths(PairTexts(row))[i := |PairText(p)|];
    SumUpdate(Lengths(PairTexts(row)), i, |PairText(p)|);
  }

  lemma EscapeOneMore(s: string, n: nat)
    requires n < |s|
    ensures Escape(s[..n + 1]) == Escape(s[..n]) + EscapeChar(s[n])
  {
    assert s[..n + 1][..n] == s[..n];
  }

  /** JSON length is strictly monotone in the prefix of a value. */
  lemma {:induction false} EscapeGrows(s: string, m: nat, n: nat)
    requires m <= n <= |s|
    ensures |Escape(s[..m])| + (n - m) <= |Escape(s[..n])|
    decreases n
  {
    if m < n {
      EscapeGrows(s, m, n - 1);
      EscapeOneMore(s, n - 1);
    }
  }

  lemma {:induction false} EscapeAtLeast(s: string)
    ensures |s| <= |Escape(s)|
  {
    EscapeGrows(s, 0, |s|);
    assert s[..|s|] == s;
  }

  // ---- Dictionary assignment

  predicate HasKey(row: Row, key: string) { exists i :: 0 <= i < |row| && row[i].key == key }

  /** `row[key] = value`: in place if the key is there, else at the end. */
  function Put(row: Row, key: string, value: string): Row {
    if row == [] then [Pair(key, value)]
    else if row[0].key == key then [Pair(key, value)] + row[1..]
    else [row[0]] + Put(row[1..], key, value)
  }

  lemma {:induction false} PutOfNewKey(row: Row, key: string, value: string)
    requires !HasKey(row, key)
    ensures Put(row, key, value) == row + [Pair(key, value)]
  {
    if row != [] {
      assert row[0].key != key;
      forall i | 0 <= i < |row[1..]| ensures row[1..][i].key != key {
        assert row[i + 1].key != key;
      }
      PutOfNewKey(row[1..], key, value);
      assert row == [row[0]] + row[1..];
    }
  }

  /** Two assignments of the same key differ in length only by their values. */
  lemma {:induction false} PutLengths(row: Row, key: string, a: string, b: string)
    ensures |RowText(Put(row, key, a))| - |Escape(a)| == |RowText(Put(row, key, b))| - |Escape(b)|
  {
    var i := PutPosition(row, key, a, b);
    UpdatedPairLength(Put(row, key, a), i, Pair(key, b));
  }

  lemma {:induction false} PutPosition(row: Row, key: string, a: string, b: string) returns (i: nat)
    ensures i < |Put(row, key, a)| && Put(row, key, a)[i] == Pair(key, a)
    ensures Put(row, key, b) == Put(row, key, a)[i := Pair(key, b)]
  {
    if row == [] || row[0].key == key {
      i := 0;
    } else {
      i := PutPosition(row[1..], key, a, b);
      i := i + 1;
    }
  }
}
