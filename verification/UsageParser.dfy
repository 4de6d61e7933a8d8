/** Strict reading of provider usage: a bounded walk over the details, and exact token fields. */
module UsageParser {
  import opened Outcomes

  const MAX_DEPTH := 32
  const MAX_NODES := 4_096

  /** A value: an exact integer, another scalar, or a container by its identity. */
  datatype Value = Token(n: int) | Plain | Ref(id: nat)

  /** `key` is absent when it is not exactly a string. */
  datatype Item = Item(key: Option<string>, value: Value)

  /** A container object. A mapping that is not exactly a dictionary is read twice. */
  datatype Container =
    | Mapping(exact: bool, readable: bool, first: seq<Item>, again: seq<Item>)
    | ListOrTuple(values: seq<Value>)
    | OtherSequence
  type Heap = map<nat, Container>

  predicate IsTokenName(k: string) {
    k == "input_tokens" || k == "prompt_tokens" || k == "output_tokens" || k == "completion_tokens" || k == "total_tokens"
  }

  predicate IsWrapperName(k: string) { k == "token_usage" || k == "usage" }

  predicate IsAuthorityName(k: string) { IsTokenName(k) || IsWrapperName(k) }

  // ---- Snapshots of mappings

  datatype Field = Field(name: string, value: Value)

  predicate ValidItems(items: seq<Item>) {
    && |items| <= MAX_NODES
    && (forall i :: 0 <= i < |items| ==> items[i].key.Some?)
    && (forall i, j :: 0 <= i < j < |items| ==> items[i].key != items[j].key)
  }

  function FieldsOf(items: seq<Item>): (r: seq<Field>)
    requires ValidItems(items)
    ensures |r| == |items| && forall i :: 0 <= i < |r| ==> Some(r[i].name) == items[i].key && r[i].value == items[i].value
  {
    seq(|items|, i requires 0 <= i < |items| => Field(items[i].key.value, items[i].value))
  }

  function ContainerOf(heap: Heap, v: Value): Option<Container> {
    if v.Ref? && v.id in heap then Some(heap[v.id]) else None
  }

  /** The items of a mapping, if it is one, is readable, has distinct string keys, and reads the same
      twice unless it is exactly a dictionary. */
  function Snapshot(heap: Heap, v: Value): Option<seq<Field>> {
    match ContainerOf(heap, v)
    case Some(Mapping(exact, readable, first, again)) =>
      if !readable || !ValidItems(first) || (!exact && (!ValidItems(again) || again != first)) then None
      else Some(FieldsOf(first))
    case _ => None
  }

  predicate HasName(fields: seq<Field>, name: string) { exists i :: 0 <= i < |fields| && fields[i].name == name }

  predicate NamesAuthority(fields: seq<Field>) { exists i :: 0 <= i < |fields| && IsAuthorityName(fields[i].name) }

  function ValuesOf(fields: seq<Field>): (r: seq<Value>)
    ensures |r| == |fields| && forall i :: 0 <= i < |r| ==> r[i] == fields[i].value
  {
    seq(|fields|, i requires 0 <= i < |fields| => fields[i].value)
  }

  /** What the walk descends into, or nothing if it refuses the value itself. */
  function Children(heap: Heap, v: Value): Option<seq<Value>> {
    match ContainerOf(heap, v)
    case None => Some([])
    case Some(OtherSequence) => None
    case Some(ListOrTuple(values)) => Some(values)
    case Some(Mapping(_, _, _, _)) =>
      match Snapshot(heap, v)
      case None => None
      case Some(fields) => if NamesAuthority(fields) then None else Some(ValuesOf(fields))
  }

  // ---- The walk, with its shared counter and its set of active containers

  /** Nodes left after visiting `v` at `depth`, or none if the walk refuses. */
  function Walk(heap: Heap, v: Value, depth: nat, active: set<nat>, remaining: int): Option<int>
    decreases MAX_DEPTH + 1 - depth, 0
  {
    if depth > MAX_DEPTH || remaining - 1 < 0 then None
    else match ContainerOf(heap, v)
      case None => Some(remaining - 1)
      case Some(OtherSequence) => None
      case Some(ListOrTuple(values)) =>
        if v.id in active || |values| > remaining - 1 then None
        else WalkAll(heap, values, depth + 1, active + {v.id}, remaining - 1)
      case Some(Mapping(_, _, _, _)) =>
        if v.id in active then None
        else match Snapshot(heap, v)
          case None => None
          case Some(fields) =>
            if NamesAuthority(fields) then None
            else WalkAll(heap, ValuesOf(fields), depth + 1, active + {v.id}, remaining - 1)
  }

  function WalkAll(heap: Heap, values: seq<Value>, depth: nat, active: set<nat>, remaining: int): Option<int>
    decreases MAX_DEPTH + 1 - depth, 1 + |values|
  {
    if values == [] then Some(remaining)
    else match Walk(heap, values[0], depth, active, remaining)
      case None => None
      case Some(left) => WalkAll(heap, values[1..], depth, active, left)
  }

  /** The walk as it runs: it decrements one counter and keeps one set for the whole descent. */
  class DetailScanner {
    var remaining: int
    var active: set<nat>

    constructor ()
      ensures remaining == MAX_NODES && active == {}
    {
      remaining, active := MAX_NODES, {};
    }

    method Reject(heap: Heap, v: Value, depth: nat) returns (ok: bool)
      modifies this
      ensures active == old(active)
      ensures ok <==> Walk(heap, v, depth, old(active), old(remaining)).Some?
      ensures ok ==> Some(remaining) == Walk(heap, v, depth, old(active), old(remaining))
      decreases MAX_DEPTH + 1 - depth, 0
    {
      remaining := remaining - 1;
      if depth > MAX_DEPTH || remaining < 0 {
        return false;
      }
      match ContainerOf(heap, v) {
        case None => return true;
        case Some(OtherSequence) => return false;
        case Some(ListOrTuple(values)) =>
          if v.id in active || |values| > remaining {
            return false;
          }
          ok := RejectAll(heap, v.id, values, depth);
        case Some(Mapping(_, _, _, _)) =>
          if v.id in active {
            return false;
          }
          var nested := Snapshot(heap, v);
          if nested.None? || NamesAuthority(nested.value) {
            return false;
          }
          ok := RejectAll(heap, v.id, ValuesOf(nested.value), depth);
      }
    }

    /** The members of container `id`, which is active while they are visited. */
    method RejectAll(heap: Heap, id: nat, values: seq<Value>, depth: nat) returns (ok: bool)
      requires id !in active && depth <= MAX_DEPTH
      modifies this
      ensures active == old(active)
      ensures ok <==> WalkAll(heap, values, depth + 1, old(active) + {id}, old(remaining)).Some?
      ensures ok ==> Some(remaining) == WalkAll(heap, values, depth + 1, old(active) + {id}, old(remaining))
      decreases MAX_DEPTH + 1 - depth - 1, 2
    {
      hide Walk;
      ghost var before := active;
      active := active + {id};
      ok := true;
      var i := 0;
      while i < |values| && ok
        invariant 0 <= i <= |values| && active == before + {id}
        invariant ok ==> WalkAll(heap, values[i..], depth + 1, active, remaining) == WalkAll(heap, values, depth + 1, active, old(remaining))
        invariant !ok ==> WalkAll(heap, values, depth + 1, active, old(remaining)).None?
        decreases |values| - i, ok
      {
        assert values[i..][0] == values[i] && values[i..][1..] == values[i + 1..];
        ok := Reject(heap, values[i], depth + 1);
        i := i + 1;
      }
      assert i == |values| ==> values[i..] == [];
      active := active - {id};
      assert active == before;
    }
  }

  // ---- What the walk decides: the size of the unfolding

  /** Nodes of the tree unfolded from `v`, if it is clean and has at most `levels` levels. No set of
      active containers, no counter. */
  function Count(heap: Heap, v: Value, levels: nat): Option<nat>
    decreases levels, 0
  {
    if levels == 0 then None
    else match Children(heap, v)
      case None => None
      case Some(children) =>
        match CountAll(heap, children, levels - 1)
        case None => None
        case Some(n) => Some(n + 1)
  }

  function CountAll(heap: Heap, values: seq<Value>, levels: nat): Option<nat>
    decreases levels, 1 + |values|
  {
    if values == [] then Some(0)
    else match (Count(heap, values[0], levels), CountAll(heap, values[1..], levels))
      case (Some(a), Some(b)) => Some(a + b)
      case _ => None
  }

  lemma {:induction false} MoreLevels(heap: Heap, v: Value, levels: nat, more: nat)
    requires levels <= more && Count(heap, v, levels).Some?
    ensures Count(heap, v, more) == Count(heap, v, levels)
    decreases levels, 0
  {
    MoreLevelsAll(heap, Children(heap, v).value, levels - 1, more - 1);
  }

  lemma {:induction false} MoreLevelsAll(heap: Heap, values: seq<Value>, levels: nat, more: nat)
    requires levels <= more && CountAll(heap, values, levels).Some?
    ensures CountAll(heap, values, more) == CountAll(heap, values, levels)
    decreases levels, 1 + |values|
  {
    hide Children;
    if values != [] {
      MoreLevels(heap, values[0], levels, more);
      MoreLevelsAll(heap, values[1..], levels, more);
    }
  }

  lemma {:induction false} EachCounts(heap: Heap, values: seq<Value>, levels: nat)
    requires CountAll(heap, values, levels).Some?
    ensures |values| <= CountAll(heap, values, levels).value
    decreases |values|
  {
    hide Children;
    if values != [] {
      EachCounts(heap, values[1..], levels);
    }
  }

  /** An accepting walk has counted the unfolding. */
  lemma {:induction false} WalkCounts(heap: Heap, v: Value, depth: nat, active: set<nat>, remaining: int)
    requires Walk(heap, v, depth, active, remaining).Some?
    ensures depth <= MAX_DEPTH
    ensures Count(heap, v, MAX_DEPTH + 1 - depth) == Some(remaining - Walk(heap, v, depth, active, remaining).value)
    ensures Walk(heap, v, depth, active, remaining).value >= 0
    decreases MAX_DEPTH + 1 - depth, 0
  {
    hide Snapshot, NamesAuthority;
    if ContainerOf(heap, v).Some? {
      WalkAllCounts(heap, Children(heap, v).value, depth + 1, active + {v.id}, remaining - 1);
    }
  }

  lemma {:induction false} WalkAllCounts(heap: Heap, values: seq<Value>, depth: nat, active: set<nat>, remaining: int)
    requires depth <= MAX_DEPTH + 1 && remaining >= 0 && WalkAll(heap, values, depth, active, remaining).Some?
    ensures CountAll(heap, values, MAX_DEPTH + 1 - depth) == Some(remaining - WalkAll(heap, values, depth, active, remaining).value)
    ensures WalkAll(heap, values, depth, active, remaining).value >= 0
    decreases MAX_DEPTH + 1 - depth, 1 + |values|
  {
    hide Children, Walk;
    if values != [] {
      WalkCounts(heap, values[0], depth, active, remaining);
      WalkAllCounts(heap, values[1..], depth, active, Walk(heap, values[0], depth, active, remaining).value);
    }
  }

  /** Every active container unfolds to more than `n` nodes. */
  ghost predicate Larger(heap: Heap, active: set<nat>, n: nat) {
    forall id :: id in active ==> Count(heap, Ref(id), MAX_DEPTH + 1).Some? && Count(heap, Ref(id), MAX_DEPTH + 1).value > n
  }

  /** A small enough clean unfolding is accepted: neither the set of active containers nor the check
      of a list's length in front ever refuses one. */
  lemma {:induction false} CountWalks(heap: Heap, v: Value, depth: nat, active: set<nat>, remaining: int)
    requires depth <= MAX_DEPTH && Count(heap, v, MAX_DEPTH + 1 - depth).Some?
    requires var n := Count(heap, v, MAX_DEPTH + 1 - depth).value; n <= remaining && Larger(heap, active, n)
    ensures Walk(heap, v, depth, active, remaining).Some?
    decreases MAX_DEPTH + 1 - depth, 0
  {
    var n := Count(heap, v, MAX_DEPTH + 1 - depth).value;
    var children := Children(heap, v).value;
    hide Snapshot, NamesAuthority;
    MoreLevels(heap, v, MAX_DEPTH + 1 - depth, MAX_DEPTH + 1);
    if ContainerOf(heap, v).Some? {
      assert v == Ref(v.id) && v.id !in active;
      EachCounts(heap, children, MAX_DEPTH - depth);
      assert Larger(heap, active + {v.id}, n - 1);
      CountWalksAll(heap, children, depth + 1, active + {v.id}, remaining - 1);
    }
  }

  lemma {:induction false} CountWalksAll(heap: Heap, values: seq<Value>, depth: nat, active: set<nat>, remaining: int)
    requires depth <= MAX_DEPTH + 1 && CountAll(heap, values, MAX_DEPTH + 1 - depth).Some?
    requires var n := CountAll(heap, values, MAX_DEPTH + 1 - depth).value; n <= remaining && Larger(heap, active, n)
    ensures WalkAll(heap, values, depth, active, remaining).Some?
    decreases MAX_DEPTH + 1 - depth, 1 + |values|
  {
    hide Children, Walk;
    if values != [] {
      var n := Count(heap, values[0], MAX_DEPTH + 1 - depth).value;
      assert depth <= MAX_DEPTH;
      CountWalks(heap, values[0], depth, active, remaining);
      WalkCounts(heap, values[0], depth, active, remaining);
      CountWalksAll(heap, values[1..], depth, active, remaining - n);
    }
  }

  /** The walk over the details accepts exactly the clean unfoldings within depth and node budget. */
  lemma ScanAcceptsIff(heap: Heap, values: seq<Value>)
    ensures WalkAll(heap, values, 0, {}, MAX_NODES).Some?
            <==> CountAll(heap, values, MAX_DEPTH + 1).Some? && CountAll(heap, values, MAX_DEPTH + 1).value <= MAX_NODES
  {
    hide Walk, Count;
    if WalkAll(heap, values, 0, {}, MAX_NODES).Some? {
      WalkAllCounts(heap, values, 0, {}, MAX_NODES);
    }
    if CountAll(heap, values, MAX_DEPTH + 1).Some? && CountAll(heap, values, MAX_DEPTH + 1).value <= MAX_NODES {
      CountWalksAll(heap, values, 0, {}, MAX_NODES);
    }
  }

  /** `w` lies `n` levels below `v`. */
  ghost predicate Below(heap: Heap, v: Value, w: Value, n: nat)
    decreases n
  {
    if n == 0 then v == w
    else Children(heap, v).Some? && exists c :: c in Children(heap, v).value && Below(heap, c, w, n - 1)
  }

  /** A counted unfolding is clean all the way down and stays within its levels. */
  lemma {:induction false} CountedIsClean(heap: Heap, v: Value, levels: nat, w: Value, n: nat)
    requires Count(heap, v, levels).Some? && Below(heap, v, w, n)
    ensures n < levels && Children(heap, w).Some?
    decreases n
  {
    if n > 0 {
      var children := Children(heap, v).value;
      var c :| c in children && Below(heap, c, w, n - 1);
      MemberCounts(heap, children, levels - 1, c);
      CountedIsClean(heap, c, levels - 1, w, n - 1);
    }
  }

  lemma {:induction false} MemberCounts(heap: Heap, values: seq<Value>, levels: nat, c: Value)
    requires CountAll(heap, values, levels).Some? && c in values
    ensures Count(heap, c, levels).Some?
    decreases |values|
  {
    hide Children;
    if values[0] != c {
      assert values == [values[0]] + values[1..];
      MemberCounts(heap, values[1..], levels, c);
    }
  }

  // ---- Token fields

  const BIGINT := 0x8000_0000_0000_0000

  datatype Usage = Usage(input: nat, output: nat, total: nat)

  function Lookup(fields: seq<Field>, name: string): (r: Option<Value>)
    ensures r.Some? <==> HasName(fields, name)
  {
    if fields == [] then None
    else if fields[0].name == name then
      assert fields[0].name == name;
      Some(fields[0].value)
    else
      var rest := Lookup(fields[1..], name);
      assert forall i :: 1 <= i < |fields| ==> fields[1..][i - 1] == fields[i];
      rest
  }

  function RequiredToken(fields: seq<Field>, name: string): Option<nat> {
    match Lookup(fields, name)
    case Some(Token(n)) => if n >= 0 then Some(n) else None
    case _ => None
  }

  function SynonymToken(fields: seq<Field>, first: string, second: string): Option<nat> {
    if HasName(fields, first) then
      if HasName(fields, second) && RequiredToken(fields, second) != RequiredToken(fields, first) then None
      else RequiredToken(fields, first)
    else RequiredToken(fields, second)
  }

  function StrictUsage(input: Option<nat>, output: Option<nat>, total: Option<nat>): Option<Usage> {
    match (input, output, total)
    case (Some(i), Some(o), Some(t)) => if t == i + o && t < BIGINT then Some(Usage(i, o, t)) else None
    case _ => None
  }

  // ---- The message parser

  /** Fields a snapshot may name without being walked. */
  datatype Position = Primary | Response | Alias

  predicate Allowed(p: Position, name: string) {
    match p
    case Primary => name == "input_tokens" || name == "output_tokens" || name == "total_tokens"
    case Response => IsWrapperName(name)
    case Alias => IsTokenName(name)
  }

  /** Authority names that may not occur at this level at all. */
  predicate Misplaced(p: Position, name: string) { IsAuthorityName(name) && !Allowed(p, name) }

  function Details(p: Position, fields: seq<Field>): seq<Value> {
    if fields == [] then []
    else (if Allowed(p, fields[0].name) then [] else [fields[0].value]) + Details(p, fields[1..])
  }

  predicate LevelOk(heap: Heap, p: Position, fields: seq<Field>) {
    && (forall i :: 0 <= i < |fields| ==> !Misplaced(p, fields[i].name))
    && WalkAll(heap, Details(p, fields), 0, {}, MAX_NODES).Some?
  }

  method ValidateDetails(heap: Heap, p: Position, fields: seq<Field>) returns (ok: bool)
    ensures ok <==> WalkAll(heap, Details(p, fields), 0, {}, MAX_NODES).Some?
  {
    hide Walk;
    var scanner := new DetailScanner();
    for i := 0 to |fields|
      invariant scanner.active == {} && fresh(scanner)
      invariant WalkAll(heap, Details(p, fields[i..]), 0, {}, scanner.remaining) == WalkAll(heap, Details(p, fields), 0, {}, MAX_NODES)
    {
      assert fields[i..][0] == fields[i] && fields[i..][1..] == fields[i + 1..];
      var rest := Details(p, fields[i + 1..]);
      if Allowed(p, fields[i].name) {
        assert Details(p, fields[i..]) == rest;
      } else {
        assert Details(p, fields[i..]) == [fields[i].value] + rest && ([fields[i].value] + rest)[1..] == rest;
        var accepted := scanner.Reject(heap, fields[i].value, 0);
        if !accepted {
          return false;
        }
      }
    }
    assert fields[|fields|..] == [];
    return true;
  }

  function LevelUsage(p: Position, fields: seq<Field>): Option<Usage> {
    if p == Alias then
      StrictUsage(SynonymToken(fields, "input_tokens", "prompt_tokens"), SynonymToken(fields, "output_tokens", "completion_tokens"),
                  RequiredToken(fields, "total_tokens"))
    else StrictUsage(RequiredToken(fields, "input_tokens"), RequiredToken(fields, "output_tokens"), RequiredToken(fields, "total_tokens"))
  }

  /** One alias mapping of the response, if present, must repeat the usage. */
  predicate AliasAgrees(heap: Heap, response: seq<Field>, wrapper: string, usage: Usage) {
    match Lookup(response, wrapper)
    case None => true
    case Some(v) =>
      match Snapshot(heap, v)
      case None => false
      case Some(alias) => LevelOk(heap, Alias, alias) && LevelUsage(Alias, alias) == Some(usage)
  }

  function ParseMessage(heap: Heap, usageMetadata: Value, responseMetadata: Value): Option<Usage> {
    match Snapshot(heap, usageMetadata)
    case None => None
    case Some(primary) =>
      if !LevelOk(heap, Primary, primary) then None
      else match LevelUsage(Primary, primary)
        case None => None
        case Some(usage) =>
          match Snapshot(heap, responseMetadata)
          case None => None
          case Some(response) =>
            if LevelOk(heap, Response, response) && AliasAgrees(heap, response, "token_usage", usage) && AliasAgrees(heap, response, "usage", usage)
            then Some(usage)
            else None
  }

  /** Every field that names tokens carries its part of the usage. */
  ghost predicate Carries(fields: seq<Field>, usage: Usage) {
    && (forall name :: (name == "input_tokens" || name == "prompt_tokens") && HasName(fields, name) ==> Lookup(fields, name) == Some(Token(usage.input)))
    && (forall name :: (name == "output_tokens" || name == "completion_tokens") && HasName(fields, name) ==> Lookup(fields, name) == Some(Token(usage.output)))
    && Lookup(fields, "total_tokens") == Some(Token(usage.total))
  }

  /** No value below a detail field of this level names an authority or is an unknown container. */
  ghost predicate NoHiddenAuthority(heap: Heap, p: Position, fields: seq<Field>) {
    forall i, w, n: nat :: 0 <= i < |fields| && !Allowed(p, fields[i].name) && Below(heap, fields[i].value, w, n) ==>
      n <= MAX_DEPTH && Children(heap, w).Some?
  }

  lemma {:induction false} DetailIsListed(p: Position, fields: seq<Field>, i: nat)
    requires i < |fields| && !Allowed(p, fields[i].name)
    ensures fields[i].value in Details(p, fields)
  {
    if i > 0 {
      DetailIsListed(p, fields[1..], i - 1);
    }
  }

  lemma AcceptedLevelHidesNothing(heap: Heap, p: Position, fields: seq<Field>)
    requires LevelOk(heap, p, fields)
    ensures NoHiddenAuthority(heap, p, fields)
  {
    hide WalkAll, CountAll, Count, Children, Below;
    ScanAcceptsIff(heap, Details(p, fields));
    forall i, w, n: nat | 0 <= i < |fields| && !Allowed(p, fields[i].name) && Below(heap, fields[i].value, w, n)
      ensures n <= MAX_DEPTH && Children(heap, w).Some?
    {
      DetailIsListed(p, fields, i);
      MemberCounts(heap, Details(p, fields), MAX_DEPTH + 1, fields[i].value);
      CountedIsClean(heap, fields[i].value, MAX_DEPTH + 1, w, n);
    }
  }

  lemma LevelCarries(p: Position, fields: seq<Field>, usage: Usage)
    requires LevelUsage(p, fields) == Some(usage) && p != Response
    requires forall i :: 0 <= i < |fields| ==> !Misplaced(p, fields[i].name)
    ensures Carries(fields, usage) && usage.total == usage.input + usage.output < BIGINT
  {
    hide HasName;
    if p == Primary {
      NotNamed(p, fields, "prompt_tokens");
      NotNamed(p, fields, "completion_tokens");
    }
  }

  lemma NotNamed(p: Position, fields: seq<Field>, name: string)
    requires Misplaced(p, name) && forall i :: 0 <= i < |fields| ==> !Misplaced(p, fields[i].name)
    ensures !HasName(fields, name)
  {}

  /** A parsed usage adds up, equals every authority in the message, and nothing else in the message
      claims to be one: not beside the permitted names, and not at any depth below the others. */
  lemma ParsedUsageIsTheOnlyAuthority(heap: Heap, usageMetadata: Value, responseMetadata: Value, usage: Usage)
    requires ParseMessage(heap, usageMetadata, responseMetadata) == Some(usage)
    ensures usage.total == usage.input + usage.output < BIGINT
    ensures var primary := Snapshot(heap, usageMetadata).value;
            Carries(primary, usage) && NoHiddenAuthority(heap, Primary, primary)
    ensures var response := Snapshot(heap, responseMetadata).value;
            && NoHiddenAuthority(heap, Response, response)
            && forall wrapper :: IsWrapperName(wrapper) && HasName(response, wrapper) ==>
              var alias := Snapshot(heap, Lookup(response, wrapper).value);
              alias.Some? && Carries(alias.value, usage) && NoHiddenAuthority(heap, Alias, alias.value)
  {
    hide LevelUsage, Carries, NoHiddenAuthority, Snapshot;
    var primary, response := Snapshot(heap, usageMetadata).value, Snapshot(heap, responseMetadata).value;
    LevelCarries(Primary, primary, usage);
    AcceptedLevelHidesNothing(heap, Primary, primary);
    AcceptedLevelHidesNothing(heap, Response, response);
    forall wrapper | IsWrapperName(wrapper) && HasName(response, wrapper)
      ensures var alias := Snapshot(heap, Lookup(response, wrapper).value);
              alias.Some? && Carries(alias.value, usage) && NoHiddenAuthority(heap, Alias, alias.value)
    {
      var alias := Snapshot(heap, Lookup(response, wrapper).value);
      assert AliasAgrees(heap, response, wrapper, usage);
      LevelCarries(Alias, alias.value, usage);
      AcceptedLevelHidesNothing(heap, Alias, alias.value);
    }
  }

  // ---- Exactly what parses

  /** The names that claim to count tokens, anywhere. */
  const AUTHORITIES: set<string> :=
    {"input_tokens", "prompt_tokens", "output_tokens", "completion_tokens", "total_tokens", "token_usage", "usage"}

  /** The names a position may use, each for its own reading. */
  function PermittedAt(p: Position): set<string> {
    match p
    case Primary => {"input_tokens", "output_tokens", "total_tokens"}
    case Response => {"token_usage", "usage"}
    case Alias => {"input_tokens", "prompt_tokens", "output_tokens", "completion_tokens", "total_tokens"}
  }

  lemma NamesInFull(p: Position, name: string)
    ensures IsAuthorityName(name) <==> name in AUTHORITIES
    ensures Allowed(p, name) <==> name in PermittedAt(p)
  {}

  /** The value is a readable mapping of at most 4096 items under distinct strings, and reads the same
      again unless it is exactly a dictionary. */
  predicate ReadsAs(heap: Heap, v: Value, fields: seq<Field>) {
    && v.Ref? && v.id in heap && heap[v.id].Mapping? && heap[v.id].readable
    && var items := heap[v.id].first;
    && (!heap[v.id].exact ==> heap[v.id].again == items)
    && |items| == |fields| <= 4_096
    && (forall i :: 0 <= i < |items| ==> items[i] == Item(Some(fields[i].name), fields[i].value))
    && (forall i, j :: 0 <= i < |fields| && 0 <= j < |fields| && fields[i].name == fields[j].name ==> i == j)
  }

  lemma SnapshotIff(heap: Heap, v: Value, fields: seq<Field>)
    ensures Snapshot(heap, v) == Some(fields) <==> ReadsAs(heap, v, fields)
  {
    if v.Ref? && v.id in heap && heap[v.id].Mapping? {
      var items := heap[v.id].first;
      if ReadsAs(heap, v, fields) {
        forall i, j | 0 <= i < j < |items| ensures items[i].key != items[j].key {
          assert fields[i].name != fields[j].name;
        }
        assert ValidItems(items);
        assert FieldsOf(items) == fields;
      }
      if Snapshot(heap, v) == Some(fields) {
        forall i, j | 0 <= i < |fields| && 0 <= j < |fields| && fields[i].name == fields[j].name ensures i == j {
          assert items[i].key == items[j].key;
        }
      }
    }
  }

  /** What a detail value unfolds to: nothing for a scalar, the members of a list or tuple, the values
      of a mapping that names no authority; other containers are not clean. */
  predicate UnfoldsTo(heap: Heap, v: Value, children: seq<Value>) {
    if !v.Ref? || v.id !in heap then children == []
    else match heap[v.id]
      case ListOrTuple(values) => children == values
      case OtherSequence => false
      case Mapping(_, _, _, _) => UnfoldsAsMapping(heap, v, children)
  }

  predicate UnfoldsAsMapping(heap: Heap, v: Value, children: seq<Value>) {
    Snapshot(heap, v).Some? &&
    var fields := Snapshot(heap, v).value;
    |fields| == |children| && forall i :: 0 <= i < |fields| ==> fields[i].name !in AUTHORITIES && fields[i].value == children[i]
  }

  lemma ChildrenIff(heap: Heap, v: Value, children: seq<Value>)
    ensures Children(heap, v) == Some(children) <==> UnfoldsTo(heap, v, children)
  {
    hide Snapshot;
    var fields := Snapshot(heap, v);
    if fields.Some? {
      forall i | 0 <= i < |fields.value| ensures IsAuthorityName(fields.value[i].name) <==> fields.value[i].name in AUTHORITIES {
        NamesInFull(Primary, fields.value[i].name);
      }
      if UnfoldsAsMapping(heap, v, children) {
        assert ValuesOf(fields.value) == children;
      }
    }
    hide IsAuthorityName;
  }

  /** No authority is named at this level but those the position permits, and what the other fields
      hold unfolds cleanly into at most thirty-three levels and 4096 nodes in all. */
  predicate LevelIsClean(heap: Heap, p: Position, fields: seq<Field>) {
    && (forall i :: 0 <= i < |fields| && fields[i].name in AUTHORITIES ==> fields[i].name in PermittedAt(p))
    && CountAll(heap, DetailsAt(p, fields), 33).Some? && CountAll(heap, DetailsAt(p, fields), 33).value <= 4_096
  }

  /** The values of the fields the position does not read itself. */
  function DetailsAt(p: Position, fields: seq<Field>): seq<Value> {
    if fields == [] then []
    else DetailsAt(p, fields[..|fields| - 1]) + if fields[|fields| - 1].name in PermittedAt(p) then [] else [fields[|fields| - 1].value]
  }

  lemma {:induction false} DetailsAppend(p: Position, a: seq<Field>, b: seq<Field>)
    ensures Details(p, a + b) == Details(p, a) + Details(p, b)
  {
    if a == [] {
      assert a + b == b;
    } else {
      DetailsAppend(p, a[1..], b);
      assert (a + b)[1..] == a[1..] + b;
    }
  }

  lemma {:induction false} DetailsFromTheEnd(p: Position, fields: seq<Field>)
    ensures DetailsAt(p, fields) == Details(p, fields)
  {
    if fields != [] {
      var last := |fields| - 1;
      DetailsFromTheEnd(p, fields[..last]);
      DetailsAppend(p, fields[..last], [fields[last]]);
      NamesInFull(p, fields[last].name);
      assert fields == fields[..last] + [fields[last]];
      assert [fields[last]][1..] == [] && Details(p, []) == [];
    }
  }

  /** The field is there and is this count of tokens. */
  predicate Says(fields: seq<Field>, name: string, n: nat) { Lookup(fields, name) == Some(Token(n)) }

  /** One of the two fields is there, and whichever is there says this count. */
  predicate EitherSays(fields: seq<Field>, first: string, second: string, n: nat) {
    && (HasName(fields, first) || HasName(fields, second))
    && (HasName(fields, first) ==> Says(fields, first, n)) && (HasName(fields, second) ==> Says(fields, second, n))
  }

  predicate AddsUp(usage: Usage) { usage.total == usage.input + usage.output < 0x8000_0000_0000_0000 }

  predicate PrimarySays(fields: seq<Field>, usage: Usage) {
    AddsUp(usage) && Says(fields, "input_tokens", usage.input) && Says(fields, "output_tokens", usage.output) && Says(fields, "total_tokens", usage.total)
  }

  predicate AliasSays(fields: seq<Field>, usage: Usage) {
    && AddsUp(usage) && EitherSays(fields, "input_tokens", "prompt_tokens", usage.input)
    && EitherSays(fields, "output_tokens", "completion_tokens", usage.output) && Says(fields, "total_tokens", usage.total)
  }

  /** The mapping under this name, if there is one, is a clean alias that says the same. */
  ghost predicate AliasIsAbsentOrSays(heap: Heap, response: seq<Field>, wrapper: string, usage: Usage) {
    HasName(response, wrapper) ==>
      exists alias :: ReadsAs(heap, Lookup(response, wrapper).value, alias) && LevelIsClean(heap, Alias, alias) && AliasSays(alias, usage)
  }

  lemma CleanIffOk(heap: Heap, p: Position, fields: seq<Field>)
    ensures LevelOk(heap, p, fields) <==> LevelIsClean(heap, p, fields)
  {
    ScanAcceptsIff(heap, Details(p, fields));
    DetailsFromTheEnd(p, fields);
    forall i | 0 <= i < |fields|
      ensures Misplaced(p, fields[i].name) <==> fields[i].name in AUTHORITIES && fields[i].name !in PermittedAt(p)
    {
      NamesInFull(p, fields[i].name);
    }
    hide Walk, WalkAll, Count, CountAll, Details, DetailsAt, IsAuthorityName, Allowed, PermittedAt, Misplaced;
  }

  lemma PrimaryUsageIff(fields: seq<Field>, usage: Usage)
    ensures LevelUsage(Primary, fields) == Some(usage) <==> PrimarySays(fields, usage)
  {
    hide Lookup;
  }

  lemma SynonymIff(fields: seq<Field>, first: string, second: string, n: nat)
    ensures SynonymToken(fields, first, second) == Some(n) <==> EitherSays(fields, first, second, n)
  {
    hide Lookup, HasName;
  }

  lemma AliasUsageIff(fields: seq<Field>, usage: Usage)
    ensures LevelUsage(Alias, fields) == Some(usage) <==> AliasSays(fields, usage)
  {
    SynonymIff(fields, "input_tokens", "prompt_tokens", usage.input);
    SynonymIff(fields, "output_tokens", "completion_tokens", usage.output);
    hide SynonymToken, EitherSays, Lookup, HasName;
  }

  lemma AliasAgreesIff(heap: Heap, response: seq<Field>, wrapper: string, usage: Usage)
    ensures AliasAgrees(heap, response, wrapper, usage) <==> AliasIsAbsentOrSays(heap, response, wrapper, usage)
  {
    hide LevelOk, LevelIsClean, LevelUsage, AliasSays, Snapshot, ReadsAs, HasName;
    match Lookup(response, wrapper)
    case None =>
    case Some(v) =>
      forall alias ensures Snapshot(heap, v) == Some(alias) <==> ReadsAs(heap, v, alias) {
        SnapshotIff(heap, v, alias);
      }
      if Snapshot(heap, v).Some? {
        CleanIffOk(heap, Alias, Snapshot(heap, v).value);
        AliasUsageIff(Snapshot(heap, v).value, usage);
      }
  }

  /** A message parses to a usage exactly if both its mappings can be read and are clean, the first one
      says the usage in its three fields, and every alias in the second says the same. */
  lemma ParsesIff(heap: Heap, usageMetadata: Value, responseMetadata: Value, usage: Usage)
    ensures ParseMessage(heap, usageMetadata, responseMetadata) == Some(usage) <==>
            exists primary, response ::
              && ReadsAs(heap, usageMetadata, primary) && LevelIsClean(heap, Primary, primary) && PrimarySays(primary, usage)
              && ReadsAs(heap, responseMetadata, response) && LevelIsClean(heap, Response, response)
              && AliasIsAbsentOrSays(heap, response, "token_usage", usage) && AliasIsAbsentOrSays(heap, response, "usage", usage)
  {
    hide Snapshot, ReadsAs, LevelOk, LevelIsClean, LevelUsage, PrimarySays, AliasAgrees, AliasIsAbsentOrSays;
    var primary, response := Snapshot(heap, usageMetadata), Snapshot(heap, responseMetadata);
    forall fields ensures primary == Some(fields) <==> ReadsAs(heap, usageMetadata, fields) {
      SnapshotIff(heap, usageMetadata, fields);
    }
    forall fields ensures response == Some(fields) <==> ReadsAs(heap, responseMetadata, fields) {
      SnapshotIff(heap, responseMetadata, fields);
    }
    if primary.Some? && response.Some? {
      CleanIffOk(heap, Primary, primary.value);
      CleanIffOk(heap, Response, response.value);
      PrimaryUsageIff(primary.value, usage);
      AliasAgreesIff(heap, response.value, "token_usage", usage);
      AliasAgreesIff(heap, response.value, "usage", usage);
    }
  }
}
