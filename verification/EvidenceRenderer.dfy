/** Evidence rows rendered greedily into one shared window of serialized characters. */
module EvidenceRenderer {
  import opened Outcomes
  import opened Sums
  import opened EvidenceJson

  /** Metadata values; `Number` carries the text the program prints for it. */
  datatype Value = Null | Text(text: string) | Truth(flag: bool) | Number(printed: string) | Items(items: seq<Value>) | Other

  datatype Message = Message(sourceId: Value, sourceUrl: Value, permission: Value, timestamp: Value, author: Value,
                             snippetOverride: Option<string>, text: string, metadata: map<string, Value>)
  datatype Packet = Packet(sourceType: Value, messages: seq<Message>)

  function Comma(parts: seq<string>): string {
    if parts == [] then "" else if |parts| == 1 then parts[0] else parts[0] + "," + Comma(parts[1..])
  }

  /** The canonical texts of the scalar items of a list, empty ones dropped. */
  function ItemTexts(items: seq<Value>): seq<string> {
    if items == [] then []
    else
      var rest := ItemTexts(items[1..]);
      match items[0]
      case Text(t) => if t == "" then rest else [t] + rest
      case Truth(flag) => [if flag then "true" else "false"] + rest
      case Number(printed) => if printed == "" then rest else [printed] + rest
      case _ => rest
  }

  function Canonical(v: Value): string {
    match v
    case Null => ""
    case Text(t) => t
    case Truth(flag) => if flag then "true" else "false"
    case Number(printed) => printed
    case Items(items) => Comma(ItemTexts(items))
    case Other => ""
  }

  /** Names of a row's fields: three mandatory ones, then the optional ones in rendering order. */
  const NAMES: seq<string> := [
    "source_id", "source_url", "permission_level", "timestamp", "author", "source_snippet",
    "source_type", "chunk_id", "parser_run_id", "parser_name", "parser_status", "parser_status_reason",
    "uncertainty_reason", "mime_type", "document_version", "revision_id", "content_signature", "content_hash",
    "section_path", "page_number", "fallback_body", "calendar_id", "calendar_name", "calendar_start",
    "calendar_end", "calendar_location", "calendar_organizer", "calendar_attendee_domains", "event_context_key",
    "event_status", "text"]

  const FIELD_COUNT := 31

  function Name(f: nat): string
    requires f < FIELD_COUNT
  {
    NAMES[f]
  }

  lemma NamesAreDistinct(f: nat, g: nat)
    requires f < g < FIELD_COUNT
    ensures Name(f) != Name(g)
  {}

  /** The metadata keys a field is read from, first present one wins. */
  function MetadataSources(name: string): seq<string> {
    if name == "document_version" then ["document_version", "document_version_label"]
    else if name == "calendar_name" then ["calendar_summary", "calendar_name"]
    else if name == "calendar_start" then ["event_start", "start"]
    else if name == "calendar_end" then ["event_end", "end"]
    else if name == "calendar_location" then ["location"]
    else if name == "calendar_organizer" then ["organizer_email"]
    else if name == "calendar_attendee_domains" then ["attendee_domains"]
    else [name]
  }

  function FirstMetadataValue(metadata: map<string, Value>, names: seq<string>): Value {
    if names == [] then Null
    else if names[0] in metadata && metadata[names[0]] != Null then metadata[names[0]]
    else FirstMetadataValue(metadata, names[1..])
  }

  function Snippet(m: Message): string {
    if m.snippetOverride.Some? && m.snippetOverride.value != "" then m.snippetOverride.value
    else m.text[..if |m.text| < 240 then |m.text| else 240]
  }

  /** The untruncated text of each field. */
  function Wanted(packet: Packet, m: Message, f: nat): string
    requires f < FIELD_COUNT
  {
    if f == 0 then Canonical(m.sourceId)
    else if f == 1 then Canonical(m.sourceUrl)
    else if f == 2 then Canonical(m.permission)
    else if f == 3 then Canonical(m.timestamp)
    else if f == 4 then Canonical(m.author)
    else if f == 5 then Snippet(m)
    else if f == FIELD_COUNT - 1 then m.text
    else
      var raw := FirstMetadataValue(m.metadata, MetadataSources(Name(f)));
      Canonical(if Name(f) == "source_type" && raw == Null then packet.sourceType else raw)
  }

  function Mandatory(packet: Packet, m: Message): Row {
    [Pair(Name(0), Wanted(packet, m, 0)), Pair(Name(1), Wanted(packet, m, 1)), Pair(Name(2), Wanted(packet, m, 2))]
  }

  // ---- The window

  function Fits(rows: seq<Row>, limit: nat): bool { |Serialize(rows)| <= limit }

  function PrefixFits(before: seq<Row>, row: Row, key: string, value: string, n: nat, limit: nat): bool
    requires n <= |value|
  {
    Fits(before + [Put(row, key, value[..n])], limit)
  }

  /** The longest non-empty prefix, of at most `n` characters, that fits; 0 if none does. */
  function Longest(before: seq<Row>, row: Row, key: string, value: string, n: nat, limit: nat): (r: nat)
    requires n <= |value|
    ensures r <= n
    ensures r == 0 || PrefixFits(before, row, key, value, r, limit)
    ensures forall m :: r < m <= n ==> !PrefixFits(before, row, key, value, m, limit)
  {
    if n == 0 then 0
    else if PrefixFits(before, row, key, value, n, limit) then n
    else Longest(before, row, key, value, n - 1, limit)
  }

  lemma PutTextLengths(before: seq<Row>, row: Row, key: string, a: string, b: string)
    ensures |Serialize(before + [Put(row, key, a)])| - |Escape(a)| == |Serialize(before + [Put(row, key, b)])| - |Escape(b)|
  {
    AppendedRowLength(before, Put(row, key, a));
    AppendedRowLength(before, Put(row, key, b));
    PutLengths(row, key, a, b);
  }

  /** A longer prefix costs strictly more. */
  lemma PrefixCost(before: seq<Row>, row: Row, key: string, value: string, m: nat, n: nat)
    requires m <= n <= |value|
    ensures |Serialize(before + [Put(row, key, value[..m])])| + (n - m) <= |Serialize(before + [Put(row, key, value[..n])])|
  {
    PutTextLengths(before, row, key, value[..m], value[..n]);
    EscapeGrows(value, m, n);
  }

  /** A dictionary object; the list of rows and the loop hold the same one. */
  class RowDict {
    var pairs: Row

    constructor (pairs: Row)
      ensures this.pairs == pairs
    {
      this.pairs := pairs;
    }
  }

  function Values(rows: seq<RowDict>): (v: seq<Row>)
    reads rows
    ensures |v| == |rows| && forall i :: 0 <= i < |rows| ==> v[i] == rows[i].pairs
  {
    seq(|rows|, i requires 0 <= i < |rows| reads rows => rows[i].pairs)
  }

  /** The binary search finds what a scan down from the whole value finds. */
  method LongestFittingPrefix(rows: seq<RowDict>, key: string, value: string, limit: nat) returns (prefix: string)
    requires rows != [] && value != ""
    ensures prefix == value[..Longest(Values(rows[..|rows| - 1]), rows[|rows| - 1].pairs, key, value, |value|, limit)]
  {
    var before, row := Values(rows[..|rows| - 1]), rows[|rows| - 1].pairs;
    if Fits(before + [Put(row, key, value)], limit) {
      assert value[..|value|] == value;
      return value;
    }
    var best, low, high := 0, 1, |value|;
    assert value[..|value|] == value;
    while low <= high
      invariant low == best + 1 && best <= high <= |value|
      invariant best == 0 || PrefixFits(before, row, key, value, best, limit)
      invariant forall m :: high < m <= |value| ==> !PrefixFits(before, row, key, value, m, limit)
    {
      var midpoint := (low + high) / 2;
      if Fits(before + [Put(row, key, value[..midpoint])], limit) {
        best, low := midpoint, midpoint + 1;
      } else {
        forall m | midpoint <= m <= |value| ensures !PrefixFits(before, row, key, value, m, limit) {
          PrefixCost(before, row, key, value, midpoint, m);
        }
        high := midpoint - 1;
      }
    }
    return value[..best];
  }

  // ---- Rendering

  function AddField(before: seq<Row>, row: Row, key: string, value: string, limit: nat): Row {
    if value == "" then row
    else
      var n := Longest(before, row, key, value, |value|, limit);
      if n == 0 then row else Put(row, key, value[..n])
  }

  /** The row of message `m` after its fields below `f` have been tried. */
  function AddFields(packet: Packet, before: seq<Row>, m: Message, f: nat, limit: nat): Row
    requires 3 <= f <= FIELD_COUNT
  {
    if f == 3 then Mandatory(packet, m)
    else AddField(before, AddFields(packet, before, m, f - 1, limit), Name(f - 1), Wanted(packet, m, f - 1), limit)
  }

  predicate HasMandatory(packet: Packet, m: Message) {
    Wanted(packet, m, 0) != "" && Wanted(packet, m, 1) != "" && Wanted(packet, m, 2) != ""
  }

  /** Rows so far, and the message each came from. */
  datatype Progress = Progress(rows: seq<Row>, kept: seq<nat>)

  function Rendered(packet: Packet, k: nat, limit: nat): Progress
    requires k <= |packet.messages|
  {
    if k == 0 then Progress([], [])
    else
      var p := Rendered(packet, k - 1, limit);
      var m := packet.messages[k - 1];
      if !HasMandatory(packet, m) || !Fits(p.rows + [Mandatory(packet, m)], limit) then p
      else Progress(p.rows + [AddFields(packet, p.rows, m, FIELD_COUNT, limit)], p.kept + [k - 1])
  }

  method RenderBoundedEvidenceRows(packet: Packet, maxInputChars: int) returns (rows: seq<RowDict>)
    ensures forall r :: r in rows ==> fresh(r)
    ensures forall i, j :: 0 <= i < j < |rows| ==> rows[i] != rows[j]
    ensures Values(rows) == Rendered(packet, |packet.messages|, if maxInputChars < 0 then 0 else maxInputChars).rows
  {
    hide Wanted, Fits, AddFields, Mandatory, HasMandatory, Values, Name;
    rows := [];
    var limit: nat := if maxInputChars < 0 then 0 else maxInputChars;
    for k := 0 to |packet.messages|
      invariant forall r :: r in rows ==> fresh(r)
      invariant forall i, j :: 0 <= i < j < |rows| ==> rows[i] != rows[j]
      invariant Values(rows) == Rendered(packet, k, limit).rows
    {
      var m := packet.messages[k];
      ghost var before := Values(rows);
      if !HasMandatory(packet, m) || !Fits(Values(rows) + [Mandatory(packet, m)], limit) {
        continue;
      }
      var earlier := rows;
      var mandatoryRow := new RowDict(Mandatory(packet, m));
      rows := rows + [mandatoryRow];
      FillRow(packet, m, rows, mandatoryRow, limit);
      assert rows[..|rows| - 1] == earlier;
      assert Values(earlier) == before;
    }
  }

  /** Writes the optional fields into the row that is also the last of the list. */
  method FillRow(packet: Packet, m: Message, rows: seq<RowDict>, row: RowDict, limit: nat)
    requires rows != [] && row == rows[|rows| - 1] && row.pairs == Mandatory(packet, m)
    requires forall i :: 0 <= i < |rows| - 1 ==> rows[i] != row
    modifies row
    ensures row.pairs == AddFields(packet, old(Values(rows[..|rows| - 1])), m, FIELD_COUNT, limit)
  {
    hide Wanted, Longest, Name, Put, Values, Mandatory;
    ghost var before := Values(rows[..|rows| - 1]);
    for f := 3 to FIELD_COUNT
      invariant Values(rows[..|rows| - 1]) == before
      invariant row.pairs == AddFields(packet, before, m, f, limit)
    {
      var value := Wanted(packet, m, f);
      if value == "" {
        continue;
      }
      var bounded := LongestFittingPrefix(rows, Name(f), value, limit);
      if bounded != "" {
        row.pairs := Put(row.pairs, Name(f), bounded);
      }
    }
  }

  // ---- The budget holds after every mutation

  lemma AddFieldKeepsBudget(before: seq<Row>, row: Row, key: string, value: string, limit: nat)
    requires Fits(before + [row], limit)
    ensures Fits(before + [AddField(before, row, key, value, limit)], limit)
  {}

  /** Each intermediate row, with the finished rows in front of it, is inside the window. */
  lemma {:induction false} EveryMutationKeepsBudget(packet: Packet, before: seq<Row>, m: Message, f: nat, limit: nat)
    requires 3 <= f <= FIELD_COUNT && Fits(before + [Mandatory(packet, m)], limit)
    ensures Fits(before + [AddFields(packet, before, m, f, limit)], limit)
    decreases f
  {
    hide Wanted, Fits, Mandatory, Name, AddField;
    if f > 3 {
      EveryMutationKeepsBudget(packet, before, m, f - 1, limit);
      AddFieldKeepsBudget(before, AddFields(packet, before, m, f - 1, limit), Name(f - 1), Wanted(packet, m, f - 1), limit);
    }
  }

  lemma {:induction false} RenderedFits(packet: Packet, k: nat, limit: nat)
    requires k <= |packet.messages|
    ensures var p := Rendered(packet, k, limit);
            |p.rows| == |p.kept| && (p.rows != [] ==> |Serialize(p.rows)| <= limit)
    decreases k
  {
    hide Wanted, HasMandatory, Mandatory, AddFields;
    if k > 0 {
      RenderedFits(packet, k - 1, limit);
      var p, m := Rendered(packet, k - 1, limit), packet.messages[k - 1];
      if HasMandatory(packet, m) && Fits(p.rows + [Mandatory(packet, m)], limit) {
        EveryMutationKeepsBudget(packet, p.rows, m, FIELD_COUNT, limit);
      }
    }
  }

  /** The list is inside the window unless it is empty, when its two brackets may not be. */
  lemma WindowIsKept(packet: Packet, limit: nat)
    ensures var rows := Rendered(packet, |packet.messages|, limit).rows;
            |Serialize(rows)| <= limit || (rows == [] && limit < 2)
  {
    RenderedFits(packet, |packet.messages|, limit);
    assert RowTexts([]) == [];
  }

  // ---- At most one value is cut, and it is the last one written

  /** Pair `j` of the row of `m` holds a non-empty prefix of the text of the field it names. */
  ghost predicate Sourced(packet: Packet, m: Message, p: Pair) {
    exists f: nat :: f < FIELD_COUNT && p.key == Name(f) && p.value != "" && p.value <= Wanted(packet, m, f)
  }

  ghost predicate Whole(packet: Packet, m: Message, p: Pair) {
    exists f: nat :: f < FIELD_COUNT && p.key == Name(f) && p.value != "" && p.value == Wanted(packet, m, f)
  }

  /** Fewer than six characters are left. */
  predicate Exhausted(rows: seq<Row>, limit: nat) { |Serialize(rows)| + 6 > limit }

  ghost predicate RowOk(packet: Packet, m: Message, before: seq<Row>, row: Row, limit: nat) {
    && row != []
    && (forall j :: 0 <= j < |row| ==> Sourced(packet, m, row[j]))
    && (forall j :: 0 <= j < |row| - 1 ==> Whole(packet, m, row[j]))
    && (Whole(packet, m, row[|row| - 1]) || Exhausted(before + [row], limit))
  }

  /** The keys of a row are names of fields already tried. */
  ghost predicate KeysBelow(row: Row, f: nat)
    requires f <= FIELD_COUNT
  {
    forall j :: 0 <= j < |row| ==> exists g: nat :: g < f && row[j].key == Name(g)
  }

  lemma NewKey(row: Row, f: nat)
    requires f < FIELD_COUNT && KeysBelow(row, f)
    ensures !HasKey(row, Name(f))
  {
    hide Name;
    forall j | 0 <= j < |row| ensures row[j].key != Name(f) {
      var g: nat :| g < f && row[j].key == Name(g);
      NamesAreDistinct(g, f);
    }
  }

  /** A new pair costs ten characters at least. */
  lemma PairCost(before: seq<Row>, row: Row, key: string, value: string)
    requires row != [] && !HasKey(row, key) && value != ""
    ensures Put(row, key, value) == row + [Pair(key, value)]
    ensures |Serialize(before + [Put(row, key, value)])| >= |Serialize(before + [row])| + 9
  {
    PutOfNewKey(row, key, value);
    AppendedPairLength(row, Pair(key, value));
    AppendedRowLength(before, row);
    AppendedRowLength(before, row + [Pair(key, value)]);
    EscapeAtLeast(value);
  }

  /** After a cut the window has room for less than one more escaped character. */
  lemma CutExhausts(before: seq<Row>, row: Row, key: string, value: string, limit: nat)
    requires var n := Longest(before, row, key, value, |value|, limit); 0 < n < |value|
    ensures Exhausted(before + [Put(row, key, value[..Longest(before, row, key, value, |value|, limit)])], limit)
  {
    var n := Longest(before, row, key, value, |value|, limit);
    assert !PrefixFits(before, row, key, value, n + 1, limit);
    PutTextLengths(before, row, key, value[..n], value[..n + 1]);
    EscapeOneMore(value, n);
  }

  lemma AddFieldKeepsRowOk(packet: Packet, m: Message, before: seq<Row>, row: Row, f: nat, limit: nat)
    requires 3 <= f < FIELD_COUNT && KeysBelow(row, f) && RowOk(packet, m, before, row, limit)
    ensures var row' := AddField(before, row, Name(f), Wanted(packet, m, f), limit);
            RowOk(packet, m, before, row', limit) && KeysBelow(row', f + 1)
  {
    hide Name, Wanted, Longest, Put, Fits, Exhausted, Serialize;
    var key, value := Name(f), Wanted(packet, m, f);
    var row' := AddField(before, row, key, value, limit);
    NewKey(row, f);
    if row' != row {
      var n := Longest(before, row, key, value, |value|, limit);
      PairCost(before, row, key, value[..n]);
      ExhaustedMeansFull(before, row, key, value, limit);
      var p := Pair(key, value[..n]);
      assert Sourced(packet, m, p);
      assert row' == row + [p];
      if n < |value| {
        CutExhausts(before, row, key, value, limit);
      } else {
        assert value[..n] == value;
      }
    }
  }

  lemma ExhaustedMeansFull(before: seq<Row>, row: Row, key: string, value: string, limit: nat)
    requires row != [] && !HasKey(row, key) && value != ""
    requires Longest(before, row, key, value, |value|, limit) > 0
    ensures !Exhausted(before + [row], limit)
  {
    var n := Longest(before, row, key, value, |value|, limit);
    PairCost(before, row, key, value[..n]);
  }

  lemma {:induction false} FieldsKeepRowOk(packet: Packet, m: Message, before: seq<Row>, f: nat, limit: nat)
    requires 3 <= f <= FIELD_COUNT && HasMandatory(packet, m)
    ensures var row := AddFields(packet, before, m, f, limit);
            RowOk(packet, m, before, row, limit) && KeysBelow(row, f)
    decreases f
  {
    hide Name, Wanted, AddField, Exhausted;
    if f == 3 {
      var row := Mandatory(packet, m);
      assert row[0].key == Name(0) && row[1].key == Name(1) && row[2].key == Name(2);
      assert Whole(packet, m, row[0]) && Whole(packet, m, row[1]) && Whole(packet, m, row[2]);
      assert Sourced(packet, m, row[0]) && Sourced(packet, m, row[1]) && Sourced(packet, m, row[2]);
    } else {
      FieldsKeepRowOk(packet, m, before, f - 1, limit);
      AddFieldKeepsRowOk(packet, m, before, AddFields(packet, before, m, f - 1, limit), f - 1, limit);
    }
  }

  ghost predicate ProgressOk(packet: Packet, p: Progress, limit: nat) {
    && |p.rows| == |p.kept|
    && (forall i :: 0 <= i < |p.rows| ==> p.kept[i] < |packet.messages| && p.rows[i] != [])
    && (forall i :: 0 <= i < |p.rows| ==> RowOk(packet, packet.messages[p.kept[i]], p.rows[..i], p.rows[i], limit))
    && (forall i :: 0 <= i < |p.rows| - 1 ==> Whole(packet, packet.messages[p.kept[i]], Last(p.rows[i])))
  }

  function Last(row: Row): Pair
    requires row != []
  {
    row[|row| - 1]
  }

  /** Another row costs more than an exhausted window has. */
  lemma RowFitsOnlyBeforeCut(rows: seq<Row>, row: Row, limit: nat)
    requires rows != [] && row != [] && Fits(rows + [row], limit)
    ensures !Exhausted(rows, limit)
  {
    AppendedRowLength(rows, row);
    AppendedPairLength([], row[0]);
    JoinLength(PairTexts(row));
    assert Lengths(PairTexts(row))[0] == |PairText(row[0])|;
  }

  lemma {:induction false} RenderedIsOk(packet: Packet, k: nat, limit: nat)
    requires k <= |packet.messages|
    ensures ProgressOk(packet, Rendered(packet, k, limit), limit)
    decreases k
  {
    hide Wanted, AddFields, Fits, RowOk, Whole, Exhausted;
    if k > 0 {
      RenderedIsOk(packet, k - 1, limit);
      var p, m := Rendered(packet, k - 1, limit), packet.messages[k - 1];
      if HasMandatory(packet, m) && Fits(p.rows + [Mandatory(packet, m)], limit) {
        ExtendProgress(packet, p, k - 1, limit);
      }
    }
  }

  lemma ExtendProgress(packet: Packet, p: Progress, k: nat, limit: nat)
    requires k < |packet.messages| && ProgressOk(packet, p, limit)
    requires var m := packet.messages[k]; HasMandatory(packet, m) && Fits(p.rows + [Mandatory(packet, m)], limit)
    ensures var m := packet.messages[k];
            ProgressOk(packet, Progress(p.rows + [AddFields(packet, p.rows, m, FIELD_COUNT, limit)], p.kept + [k]), limit)
  {
    hide Wanted, AddFields, Fits, Whole, Exhausted, Sourced, HasMandatory;
    var m := packet.messages[k];
    FieldsKeepRowOk(packet, m, p.rows, FIELD_COUNT, limit);
    var q := Progress(p.rows + [AddFields(packet, p.rows, m, FIELD_COUNT, limit)], p.kept + [k]);
    if p.rows != [] {
      RowFitsOnlyBeforeCut(p.rows, Mandatory(packet, m), limit);
      var last := |p.rows| - 1;
      assert p.rows == p.rows[..last] + [p.rows[last]];
      assert RowOk(packet, packet.messages[p.kept[last]], p.rows[..last], p.rows[last], limit);
    }
    forall i | 0 <= i < |q.rows| ensures RowOk(packet, packet.messages[q.kept[i]], q.rows[..i], q.rows[i], limit) {
      if i < |p.rows| {
        assert q.rows[..i] == p.rows[..i];
        assert RowOk(packet, packet.messages[p.kept[i]], p.rows[..i], p.rows[i], limit);
      } else {
        assert q.rows[..i] == p.rows;
      }
    }
  }

  /** In the whole output every value is a non-empty prefix of its field's text, and only the very
      last value written can be a proper one. */
  lemma OnlyTheLastValueIsCut(packet: Packet, limit: nat, i: nat, j: nat)
    requires var p := Rendered(packet, |packet.messages|, limit); i < |p.rows| && j < |p.rows[i]|
    ensures var p := Rendered(packet, |packet.messages|, limit);
            && |p.kept| == |p.rows| && p.kept[i] < |packet.messages|
            && Sourced(packet, packet.messages[p.kept[i]], p.rows[i][j])
            && (Whole(packet, packet.messages[p.kept[i]], p.rows[i][j]) || (i == |p.rows| - 1 && j == |p.rows[i]| - 1))
  {
    hide Wanted, Rendered, Name, Exhausted;
    RenderedIsOk(packet, |packet.messages|, limit);
    var p := Rendered(packet, |packet.messages|, limit);
    assert RowOk(packet, packet.messages[p.kept[i]], p.rows[..i], p.rows[i], limit);
    assert i < |p.rows| - 1 ==> Whole(packet, packet.messages[p.kept[i]], Last(p.rows[i]));
  }

  /** A value names its field unambiguously. */
  lemma SourceIsUnique(packet: Packet, m: Message, p: Pair, f: nat, g: nat)
    requires f < FIELD_COUNT && g < FIELD_COUNT && p.key == Name(f) && p.key == Name(g)
    ensures f == g
  {
    hide Name;
    if f != g {
      NamesAreDistinct(if f < g then f else g, if f < g then g else f);
    }
  }
}
