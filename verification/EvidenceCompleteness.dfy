/** What the evidence window must show: which messages appear, which of their fields, and everything
    when everything fits. */
module EvidenceCompleteness {
  import opened Outcomes
  import opened Sums
  import opened EvidenceJson
  import opened EvidenceRenderer

  /** The three fields every row starts with. */
  function Identity(m: Message): Row {
    [Pair("source_id", Canonical(m.sourceId)), Pair("source_url", Canonical(m.sourceUrl)), Pair("permission_level", Canonical(m.permission))]
  }

  predicate Identified(m: Message) {
    Canonical(m.sourceId) != "" && Canonical(m.sourceUrl) != "" && Canonical(m.permission) != ""
  }

  lemma MandatoryIsIdentity(packet: Packet, m: Message)
    ensures Mandatory(packet, m) == Identity(m) && (HasMandatory(packet, m) <==> Identified(m))
  {}

  // ---- Which messages appear

  predicate Ascends(kept: seq<nat>) { forall i, j :: 0 <= i < j < |kept| ==> kept[i] < kept[j] }

  /** The first `i` kept messages are those in front of message `k`. */
  predicate KeptBefore(kept: seq<nat>, k: nat, i: nat) {
    i <= |kept| && (forall j :: 0 <= j < i ==> kept[j] < k) && (forall j :: i <= j < |kept| ==> kept[j] >= k)
  }

  lemma {:induction false} RenderedGrows(packet: Packet, k: nat, n: nat, limit: nat)
    requires k <= n <= |packet.messages|
    ensures var p, q := Rendered(packet, k, limit), Rendered(packet, n, limit);
            && |p.rows| == |p.kept| && |q.rows| == |q.kept| && p.rows <= q.rows && p.kept <= q.kept
            && (forall j :: |p.kept| <= j < |q.kept| ==> k <= q.kept[j] < n)
    decreases n
  {
    hide Fits, HasMandatory, AddFields, Mandatory;
    if k < n {
      RenderedGrows(packet, k, n - 1, limit);
    } else if n > 0 {
      RenderedGrows(packet, n - 1, n - 1, limit);
    }
  }

  lemma KeptAreEarlier(packet: Packet, k: nat, n: nat, limit: nat)
    requires k <= n <= |packet.messages|
    ensures KeptBefore(Rendered(packet, n, limit).kept, k, |Rendered(packet, k, limit).kept|)
  {
    hide Rendered;
    RenderedGrows(packet, 0, k, limit);
    RenderedGrows(packet, k, n, limit);
    assert Rendered(packet, 0, limit).kept == [] by { NothingRendered(packet, limit); }
  }

  lemma NothingRendered(packet: Packet, limit: nat)
    ensures Rendered(packet, 0, limit) == Progress([], [])
  {}

  lemma {:induction false} KeptAscend(packet: Packet, n: nat, limit: nat)
    requires n <= |packet.messages|
    ensures Ascends(Rendered(packet, n, limit).kept)
    decreases n
  {
    hide Fits, HasMandatory, AddFields, Mandatory;
    if n > 0 {
      KeptAscend(packet, n - 1, limit);
      RenderedGrows(packet, 0, n - 1, limit);
    }
  }

  lemma OneMessage(packet: Packet, k: nat, limit: nat)
    requires k < |packet.messages|
    ensures var p, q := Rendered(packet, k, limit), Rendered(packet, k + 1, limit); var m := packet.messages[k];
            if Identified(m) && |Serialize(p.rows + [Identity(m)])| <= limit
            then q == Progress(p.rows + [AddFields(packet, p.rows, m, FIELD_COUNT, limit)], p.kept + [k])
            else q == p
  {
    MandatoryIsIdentity(packet, packet.messages[k]);
    hide HasMandatory, Mandatory, AddFields, Identity, Identified;
  }

  /** Rows are in message order, and message `k` has one exactly if its three identifying texts are
      not empty and fit behind the rows of the messages in front of it. */
  lemma MessageAppearsIff(packet: Packet, limit: nat, k: nat) returns (i: nat)
    requires k < |packet.messages|
    ensures var p := Rendered(packet, |packet.messages|, limit); var m := packet.messages[k];
            && |p.rows| == |p.kept| && Ascends(p.kept) && KeptBefore(p.kept, k, i)
            && (k in p.kept <==> Identified(m) && |Serialize(p.rows[..i] + [Identity(m)])| <= limit)
            && (k in p.kept ==> i < |p.kept| && p.kept[i] == k)
  {
    hide Rendered, Identified, Identity, Serialize;
    var n := |packet.messages|;
    var before, p := Rendered(packet, k, limit), Rendered(packet, n, limit);
    i := |before.kept|;
    KeptAscend(packet, n, limit);
    KeptAreEarlier(packet, k, n, limit);
    RenderedGrows(packet, k, n, limit);
    RenderedGrows(packet, k + 1, n, limit);
    OneMessage(packet, k, limit);
    assert p.rows[..i] == before.rows;
    KeptAreEarlier(packet, k + 1, n, limit);
    var next := Rendered(packet, k + 1, limit);
    if next == before {
      assert forall j :: 0 <= j < |p.kept| ==> p.kept[j] != k;
    } else {
      assert next.kept[i] == k && p.kept[i] == next.kept[i];
    }
  }

  // ---- Which fields appear

  /** The keys of a row are names of fields from `f` on. */
  ghost predicate KeysFrom(row: Row, f: nat) {
    forall j :: 0 <= j < |row| ==> exists g: nat :: f <= g < FIELD_COUNT && row[j].key == Name(g)
  }

  lemma FieldAdds(packet: Packet, before: seq<Row>, m: Message, f: nat, limit: nat)
    requires 3 <= f < FIELD_COUNT && HasMandatory(packet, m)
    ensures var row, value := AddFields(packet, before, m, f, limit), Wanted(packet, m, f);
            var n := if value == "" then 0 else Longest(before, row, Name(f), value, |value|, limit);
            && n <= |value| && KeysBelow(row, f)
            && AddFields(packet, before, m, f + 1, limit) == (if n == 0 then row else row + [Pair(Name(f), value[..n])])
  {
    FieldsKeepRowOk(packet, m, before, f, limit);
    NewKey(AddFields(packet, before, m, f, limit), f);
    hide Name, Wanted, Longest, Mandatory, HasMandatory, RowOk;
    var row, value := AddFields(packet, before, m, f, limit), Wanted(packet, m, f);
    if value != "" {
      PutOfNewKey(row, Name(f), value[..Longest(before, row, Name(f), value, |value|, limit)]);
    }
    hide AddFields, Put;
    AddOne(packet, before, m, f, limit);
  }

  lemma AddOne(packet: Packet, before: seq<Row>, m: Message, f: nat, limit: nat)
    requires 3 <= f < FIELD_COUNT
    ensures AddFields(packet, before, m, f + 1, limit)
         == AddField(before, AddFields(packet, before, m, f, limit), Name(f), Wanted(packet, m, f), limit)
  {
    hide AddField, Name, Wanted;
  }

  lemma {:induction false} FieldsGrow(packet: Packet, before: seq<Row>, m: Message, f: nat, g: nat, limit: nat)
    requires 3 <= f <= g <= FIELD_COUNT && HasMandatory(packet, m)
    ensures var a, b := AddFields(packet, before, m, f, limit), AddFields(packet, before, m, g, limit);
            a <= b && KeysFrom(b[|a|..], f)
    decreases g
  {
    hide Name, Wanted, Longest, AddFields, HasMandatory;
    if f < g {
      FieldsGrow(packet, before, m, f, g - 1, limit);
      FieldAdds(packet, before, m, g - 1, limit);
      var a, b, c := AddFields(packet, before, m, f, limit), AddFields(packet, before, m, g - 1, limit), AddFields(packet, before, m, g, limit);
      assert c[|a|..] == b[|a|..] + c[|b|..];
    }
  }

  lemma FirstCharacterDecides(before: seq<Row>, row: Row, key: string, value: string, limit: nat)
    requires value != ""
    ensures Longest(before, row, key, value, |value|, limit) == 0 <==> !Fits(before + [Put(row, key, value[..1])], limit)
  {
    var n := Longest(before, row, key, value, |value|, limit);
    if n > 0 {
      PrefixCost(before, row, key, value, 1, n);
    } else {
      assert !PrefixFits(before, row, key, value, 1, limit);
    }
    hide Longest;
  }

  /** In each row the fields keep their order: those tried before field `f`, then `f` if it is there,
      then later ones. Field `f` is missing exactly if its text is empty, or not even its first
      character fitted behind the fields before it. */
  lemma FieldAppearsIff(packet: Packet, limit: nat, i: nat, f: nat) returns (j: nat)
    requires i < |Rendered(packet, |packet.messages|, limit).rows| && 3 <= f < FIELD_COUNT
    ensures var p := Rendered(packet, |packet.messages|, limit);
            && i < |p.kept| && p.kept[i] < |packet.messages|
            && var row, value := p.rows[i], Wanted(packet, packet.messages[p.kept[i]], f);
            && j <= |row| && KeysBelow(row[..j], f)
            && (if value == "" || |Serialize(p.rows[..i] + [row[..j] + [Pair(Name(f), value[..1])]])| > limit then KeysFrom(row[j..], f + 1)
                else j < |row| && row[j].key == Name(f) && KeysFrom(row[j + 1..], f + 1))
  {
    hide Name, Wanted, Longest, HasMandatory, Serialize, KeysFrom, KeysBelow, Put;
    var n := |packet.messages|;
    RenderedGrows(packet, 0, n, limit);
    var p := Rendered(packet, n, limit);
    var k := RowIsItsMessages(packet, limit, i);
    var m := packet.messages[k];
    var before := p.rows[..i];
    hide AddFields, Rendered;
    FieldAdds(packet, before, m, f, limit);
    FieldsGrow(packet, before, m, f, FIELD_COUNT, limit);
    FieldsGrow(packet, before, m, f + 1, FIELD_COUNT, limit);
    var partial, next := AddFields(packet, before, m, f, limit), AddFields(packet, before, m, f + 1, limit);
    j := |partial|;
    assert p.rows[i][..j] == partial;
    var value := Wanted(packet, m, f);
    if value != "" {
      FirstCharacterDecides(before, partial, Name(f), value, limit);
      NewKey(partial, f);
      PutOfNewKey(partial, Name(f), value[..1]);
    }
  }

  /** Row `i` is made of its message's fields behind the rows in front of it. */
  lemma RowIsItsMessages(packet: Packet, limit: nat, i: nat) returns (k: nat)
    requires i < |Rendered(packet, |packet.messages|, limit).rows|
    ensures var p := Rendered(packet, |packet.messages|, limit);
            && i < |p.kept| && p.kept[i] == k < |packet.messages| && HasMandatory(packet, packet.messages[k])
            && p.rows[i] == AddFields(packet, p.rows[..i], packet.messages[k], FIELD_COUNT, limit)
  {
    hide Rendered, AddFields, HasMandatory, Identity, Identified, Serialize;
    var n := |packet.messages|;
    NothingRendered(packet, limit);
    RenderedGrows(packet, 0, n, limit);
    var p := Rendered(packet, n, limit);
    k := p.kept[i];
    KeptAscend(packet, n, limit);
    KeptAreEarlier(packet, k, n, limit);
    RenderedGrows(packet, k, n, limit);
    RenderedGrows(packet, k + 1, n, limit);
    OneMessage(packet, k, limit);
    KeptAreEarlier(packet, k + 1, n, limit);
    MandatoryIsIdentity(packet, packet.messages[k]);
    assert |Rendered(packet, k, limit).kept| == i;
    assert p.rows[..i] == Rendered(packet, k, limit).rows;
  }

  // ---- Everything, when everything fits

  /** Fields below `f`, each whole. */
  function FullFields(packet: Packet, m: Message, f: nat): Row
    requires 3 <= f <= FIELD_COUNT
  {
    if f == 3 then Identity(m)
    else FullFields(packet, m, f - 1) + if Wanted(packet, m, f - 1) == "" then [] else [Pair(Name(f - 1), Wanted(packet, m, f - 1))]
  }

  /** Every identified message with every field that has a text, whole. */
  function FullRows(packet: Packet, k: nat): seq<Row>
    requires k <= |packet.messages|
  {
    if k == 0 then []
    else FullRows(packet, k - 1) + if Identified(packet.messages[k - 1]) then [FullFields(packet, packet.messages[k - 1], FIELD_COUNT)] else []
  }

  lemma {:induction false} FullRowsGrow(packet: Packet, k: nat, n: nat)
    requires k <= n <= |packet.messages|
    ensures FullRows(packet, k) <= FullRows(packet, n) && |Serialize(FullRows(packet, k))| <= |Serialize(FullRows(packet, n))|
    decreases n
  {
    hide FullFields, Identified, Serialize;
    if k < n {
      FullRowsGrow(packet, k, n - 1);
      if Identified(packet.messages[n - 1]) {
        AppendedRowLength(FullRows(packet, n - 1), FullFields(packet, packet.messages[n - 1], FIELD_COUNT));
      } else {
        assert FullRows(packet, n) == FullRows(packet, n - 1);
      }
    }
  }

  lemma {:induction false} FullFieldsGrow(packet: Packet, before: seq<Row>, m: Message, f: nat, g: nat)
    requires 3 <= f <= g <= FIELD_COUNT
    ensures |Serialize(before + [FullFields(packet, m, f)])| <= |Serialize(before + [FullFields(packet, m, g)])|
    decreases g
  {
    hide Wanted, Name, Serialize, RowText;
    if f < g {
      FullFieldsGrow(packet, before, m, f, g - 1);
      if Wanted(packet, m, g - 1) != "" {
        var row, p := FullFields(packet, m, g - 1), Pair(Name(g - 1), Wanted(packet, m, g - 1));
        AppendedPairLength(row, p);
        AppendedRowLength(before, row);
        AppendedRowLength(before, row + [p]);
      } else {
        assert FullFields(packet, m, g) == FullFields(packet, m, g - 1);
      }
    }
  }

  lemma {:induction false} FieldsAreFull(packet: Packet, before: seq<Row>, m: Message, f: nat, limit: nat)
    requires 3 <= f <= FIELD_COUNT && HasMandatory(packet, m)
    requires |Serialize(before + [FullFields(packet, m, f)])| <= limit
    ensures AddFields(packet, before, m, f, limit) == FullFields(packet, m, f)
    decreases f
  {
    hide Name, Wanted, Identity, Serialize, HasMandatory;
    if f == 3 {
      MandatoryIsIdentity(packet, m);
    } else {
      FullFieldsGrow(packet, before, m, f - 1, f);
      FieldsAreFull(packet, before, m, f - 1, limit);
      FieldAdds(packet, before, m, f - 1, limit);
      if Wanted(packet, m, f - 1) != "" {
        WholeFits(packet, before, m, f - 1, limit);
      } else {
        assert FullFields(packet, m, f) == FullFields(packet, m, f - 1);
      }
    }
  }

  lemma WholeFits(packet: Packet, before: seq<Row>, m: Message, f: nat, limit: nat)
    requires 3 <= f < FIELD_COUNT && HasMandatory(packet, m) && Wanted(packet, m, f) != ""
    requires |Serialize(before + [FullFields(packet, m, f + 1)])| <= limit
    requires AddFields(packet, before, m, f, limit) == FullFields(packet, m, f)
    ensures var value := Wanted(packet, m, f);
            Longest(before, FullFields(packet, m, f), Name(f), value, |value|, limit) == |value| && value[..|value|] == value
  {
    FieldsKeepRowOk(packet, m, before, f, limit);
    hide Name, Wanted, HasMandatory, AddFields, Serialize, RowOk, Identity;
    var row, value := FullFields(packet, m, f), Wanted(packet, m, f);
    NewKey(row, f);
    PutOfNewKey(row, Name(f), value);
    assert value[..|value|] == value;
    assert PrefixFits(before, row, Name(f), value, |value|, limit);
  }

  lemma {:induction false} RowsAreFull(packet: Packet, k: nat, limit: nat)
    requires k <= |packet.messages| && (FullRows(packet, k) != [] ==> |Serialize(FullRows(packet, k))| <= limit)
    ensures Rendered(packet, k, limit).rows == FullRows(packet, k)
    decreases k
  {
    hide Serialize, AddFields, FullFields, Identified, Identity;
    if k > 0 {
      FullRowsGrow(packet, k - 1, k);
      RowsAreFull(packet, k - 1, limit);
      OneMessage(packet, k - 1, limit);
      var m := packet.messages[k - 1];
      if Identified(m) {
        var before := FullRows(packet, k - 1);
        MandatoryIsIdentity(packet, m);
        FullFieldsGrow(packet, before, m, 3, FIELD_COUNT);
        FullStartsWithIdentity(packet, m);
        FieldsAreFull(packet, before, m, FIELD_COUNT, limit);
      }
      hide Rendered;
    }
  }

  lemma FullStartsWithIdentity(packet: Packet, m: Message)
    ensures FullFields(packet, m, 3) == Identity(m)
  {}

  /** The window shows everything exactly if everything fits: then every identified message appears
      with every field that has a text, whole and in order. */
  lemma EverythingIsShownIff(packet: Packet, limit: nat)
    ensures var n := |packet.messages|;
            Rendered(packet, n, limit).rows == FullRows(packet, n)
            <==> FullRows(packet, n) == [] || |Serialize(FullRows(packet, n))| <= limit
  {
    hide Rendered, FullRows, Serialize;
    var n := |packet.messages|;
    WindowIsKept(packet, limit);
    if FullRows(packet, n) == [] || |Serialize(FullRows(packet, n))| <= limit {
      RowsAreFull(packet, n, limit);
    }
  }

  /** The fields of a message that has texts are there under their names. */
  lemma {:induction false} FullFieldsHaveEveryText(packet: Packet, m: Message, f: nat, g: nat)
    requires 3 <= g < f <= FIELD_COUNT && Wanted(packet, m, g) != ""
    ensures Pair(Name(g), Wanted(packet, m, g)) in FullFields(packet, m, f)
    decreases f
  {
    hide Wanted, Name;
    if g < f - 1 {
      FullFieldsHaveEveryText(packet, m, f - 1, g);
    }
  }

  // ---- What a field's text is

  /** Metadata fields that are read from keys of other names, in this order. */
  const ALIASES: map<string, seq<string>> := map[
    "document_version" := ["document_version", "document_version_label"],
    "calendar_name" := ["calendar_summary", "calendar_name"],
    "calendar_start" := ["event_start", "start"],
    "calendar_end" := ["event_end", "end"],
    "calendar_location" := ["location"],
    "calendar_organizer" := ["organizer_email"],
    "calendar_attendee_domains" := ["attendee_domains"]]

  function KeysFor(name: string): seq<string> { if name in ALIASES then ALIASES[name] else [name] }

  predicate Absent(metadata: map<string, Value>, key: string) { key !in metadata || metadata[key] == Null }

  /** The value under the first key that has one. */
  predicate IsFirstPresent(metadata: map<string, Value>, keys: seq<string>, v: Value) {
    || (v == Null && forall i :: 0 <= i < |keys| ==> Absent(metadata, keys[i]))
    || exists i :: 0 <= i < |keys| && keys[i] in metadata && v == metadata[keys[i]] && v != Null
                   && forall j :: 0 <= j < i ==> Absent(metadata, keys[j])
  }

  lemma {:induction false} FirstIsPresent(metadata: map<string, Value>, keys: seq<string>)
    ensures IsFirstPresent(metadata, keys, FirstMetadataValue(metadata, keys))
  {
    if keys != [] && Absent(metadata, keys[0]) {
      var rest := keys[1..];
      FirstIsPresent(metadata, rest);
      var v := FirstMetadataValue(metadata, rest);
      if v == Null && forall i :: 0 <= i < |rest| ==> Absent(metadata, rest[i]) {
        forall i | 0 <= i < |keys| ensures Absent(metadata, keys[i]) {
          assert i > 0 ==> keys[i] == rest[i - 1];
        }
      } else {
        var i :| 0 <= i < |rest| && rest[i] in metadata && v == metadata[rest[i]] && v != Null && forall j :: 0 <= j < i ==> Absent(metadata, rest[j]);
        assert keys[i + 1] == rest[i];
        forall j | 0 <= j < i + 1 ensures Absent(metadata, keys[j]) {
          assert j > 0 ==> keys[j] == rest[j - 1];
        }
      }
    }
  }

  /** The text of the field of this name. */
  ghost predicate IsTextOf(packet: Packet, m: Message, name: string, text: string) {
    if name == "source_id" then text == Canonical(m.sourceId)
    else if name == "source_url" then text == Canonical(m.sourceUrl)
    else if name == "permission_level" then text == Canonical(m.permission)
    else if name == "timestamp" then text == Canonical(m.timestamp)
    else if name == "author" then text == Canonical(m.author)
    else if name == "text" then text == m.text
    else if name == "source_snippet" then
      if m.snippetOverride.GetOr("") != "" then text == m.snippetOverride.value
      else text <= m.text && |text| == (if |m.text| <= 240 then |m.text| else 240)
    else exists v :: IsFirstPresent(m.metadata, KeysFor(name), v)
                     && text == Canonical(if v == Null && name == "source_type" then packet.sourceType else v)
  }

  lemma SourcesAreAliases(name: string)
    ensures MetadataSources(name) == KeysFor(name)
  {}

  lemma FieldNames(f: nat)
    requires f < FIELD_COUNT
    ensures f == 0 <==> Name(f) == "source_id"
    ensures f == 1 <==> Name(f) == "source_url"
    ensures f == 2 <==> Name(f) == "permission_level"
    ensures f == 3 <==> Name(f) == "timestamp"
    ensures f == 4 <==> Name(f) == "author"
    ensures f == 5 <==> Name(f) == "source_snippet"
    ensures f == 30 <==> Name(f) == "text"
  {}

  /** Every field the renderer tries is tried with the text its name stands for. */
  lemma FieldsAreNamed(packet: Packet, m: Message, f: nat)
    requires f < FIELD_COUNT
    ensures IsTextOf(packet, m, Name(f), Wanted(packet, m, f))
  {
    FieldNames(f);
    SourcesAreAliases(Name(f));
    FirstIsPresent(m.metadata, KeysFor(Name(f)));
    hide Name, MetadataSources, FirstMetadataValue, Canonical, IsFirstPresent, KeysFor;
  }

  /** How values are written: scalars as themselves, nothing for null, and lists as their scalar items
      that are not empty, in order, between commas. */
  lemma ValuesAreWritten(items: seq<Value>, last: Value)
    ensures Canonical(Null) == "" && Canonical(Truth(true)) == "true" && Canonical(Truth(false)) == "false"
    ensures ItemTexts(items + [last]) ==
            if (last.Text? || last.Truth? || last.Number?) && Canonical(last) != "" then ItemTexts(items) + [Canonical(last)] else ItemTexts(items)
    ensures Canonical(Items(items + [last])) ==
            if ItemTexts(items + [last]) == ItemTexts(items) then Canonical(Items(items))
            else if ItemTexts(items) == [] then Canonical(last) else Canonical(Items(items)) + "," + Canonical(last)
  {
    ItemTextsOneMore(items, last);
    CommaOneMore(ItemTexts(items), Canonical(last));
    hide ItemTexts, Comma;
  }

  lemma {:induction false} ItemTextsOneMore(items: seq<Value>, last: Value)
    ensures ItemTexts(items + [last]) ==
            if (last.Text? || last.Truth? || last.Number?) && Canonical(last) != "" then ItemTexts(items) + [Canonical(last)] else ItemTexts(items)
  {
    if items == [] {
      assert [] + [last] == [last] && [last][1..] == [] && ItemTexts([]) == [];
    } else {
      ItemTextsOneMore(items[1..], last);
      assert (items + [last])[1..] == items[1..] + [last];
    }
  }

  lemma {:induction false} CommaOneMore(parts: seq<string>, last: string)
    ensures Comma(parts + [last]) == if parts == [] then last else Comma(parts) + "," + last
  {
    if parts == [] {
      assert [] + [last] == [last];
    } else {
      CommaOneMore(parts[1..], last);
      assert (parts + [last])[1..] == parts[1..] + [last];
    }
  }
}
