/** The frame that shows a batch of candidates to the validator: slot numbering and its refusals. */
module ValidationFrame {
  import opened Outcomes
  import opened Sums
  import opened AutoReviewPolicy
  import EvidenceJson

  const MAX_EVIDENCE_SLOTS := 12
  const MAX_FRAME_CHARS := 12_000
  const MAX_CLAIM_CHARS := 2_000

  datatype ClaimText = ClaimText(field: ClaimField, text: string)

  /** A candidate as its constructor admits it: two claims, one to twelve evidence texts. */
  datatype RawRequest = RawRequest(itemType: string, claims: seq<ClaimText>, evidence: seq<string>)
  type CandidateRequest = r: RawRequest | |r.claims| == 2 && 1 <= |r.evidence| <= MAX_EVIDENCE_SLOTS
    witness RawRequest("timeline_event", [ClaimText(Title, "a"), ClaimText(ResultSummary, "b")], ["c"])

  /** Whitespace stripping, the plaintext scan, NFC normalisation of an escaped text, and whether the
      tokenizer finds a canonical frame text within its cap. */
  datatype Rules = Rules(strip: string -> string, scan: string -> bool, nfc: string -> string, withinTokens: string -> bool)

  datatype Frame = Frame(candidateSlots: seq<nat>, evidenceSlots: seq<nat>, fields: seq<seq<ClaimField>>,
                         evidenceOf: seq<seq<nat>>)

  predicate ClaimAdmitted(rules: Rules, c: ClaimText) {
    var text := rules.strip(c.text);
    text != "" && |text| <= MAX_CLAIM_CHARS && rules.scan(text)
  }

  predicate EvidenceAdmitted(rules: Rules, text: string) {
    rules.strip(text) != "" && rules.scan(rules.strip(text))
  }

  predicate TextsAdmitted(rules: Rules, r: CandidateRequest) {
    && (forall i :: 0 <= i < |r.claims| ==> ClaimAdmitted(rules, r.claims[i]))
    && (forall i :: 0 <= i < |r.evidence| ==> EvidenceAdmitted(rules, r.evidence[i]))
  }

  /** Evidence slots used by the candidates in front of position `k`. */
  function SlotsBefore(requests: seq<CandidateRequest>, k: nat): (n: nat)
    requires k <= |requests|
    ensures n >= k
  {
    if k == 0 then 0 else SlotsBefore(requests, k - 1) + |requests[k - 1].evidence|
  }

  function SlotCount(requests: seq<CandidateRequest>): nat { SlotsBefore(requests, |requests|) }

  // ---- The canonical text

  function Commas(parts: seq<string>): string {
    if parts == [] then "" else if |parts| == 1 then parts[0] else parts[0] + "," + Commas(parts[1..])
  }

  function ListText(parts: seq<string>): string { "[" + Commas(parts) + "]" }

  /** Quotes do not compose with their neighbours, so normalising a text normalises each quoted part. */
  function Quoted(rules: Rules, text: string): string { "\"" + rules.nfc(EvidenceJson.Escape(text)) + "\"" }

  function Digit(d: nat): char
    requires d < 10
  {
    ('0' as int + d) as char
  }

  /** `C01`, `E12`: a letter and two digits. */
  function SlotText(letter: char, n: nat): (t: string)
    requires n < 100
    ensures |t| == 3
  {
    [letter, Digit(n / 10), Digit(n % 10)]
  }

  function FieldName(f: ClaimField): string {
    match f
    case Title => "title"
    case ResultSummary => "result_summary"
    case Reason => "reason"
  }

  function ClaimObject(rules: Rules, c: ClaimText): string {
    "{\"field_key\":\"" + FieldName(c.field) + "\",\"text\":" + Quoted(rules, rules.strip(c.text)) + "}"
  }

  function SlotList(from: nat, count: nat): seq<string>
    requires from + count <= 100
  {
    seq(count, i requires 0 <= i < count => "\"" + SlotText('E', from + i) + "\"")
  }

  function EvidenceObjects(rules: Rules, from: nat, texts: seq<string>): seq<string>
    requires from + |texts| <= 100
  {
    seq(|texts|, i requires 0 <= i < |texts| =>
      "{\"slot_id\":\"" + SlotText('E', from + i) + "\",\"text\":" + Quoted(rules, rules.strip(texts[i])) + "}")
  }

  function ClaimObjects(rules: Rules, claims: seq<ClaimText>): seq<string> {
    seq(|claims|, i requires 0 <= i < |claims| => ClaimObject(rules, claims[i]))
  }

  /** One candidate in slot `slot`, its evidence numbered from `from`; keys in order. */
  function CandidateObject(rules: Rules, slot: nat, from: nat, r: CandidateRequest): string
    requires slot < 100 && from + |r.evidence| <= 100
  {
    "{\"allowed_evidence_slot_ids\":" + ListText(SlotList(from, |r.evidence|))
    + ",\"candidate_slot_id\":\"" + SlotText('C', slot)
    + "\",\"claims\":" + ListText(ClaimObjects(rules, r.claims))
    + ",\"evidence\":" + ListText(EvidenceObjects(rules, from, r.evidence))
    + ",\"item_type\":" + Quoted(rules, r.itemType) + "}"
  }

  /** The batch is small enough to be numbered. */
  predicate Numerable(requests: seq<CandidateRequest>) {
    |requests| <= MAX_CANDIDATES_PER_BATCH && SlotCount(requests) <= MAX_EVIDENCE_SLOTS
  }

  function CandidateObjects(rules: Rules, requests: seq<CandidateRequest>): (r: seq<string>)
    requires Numerable(requests)
    ensures |r| == |requests|
  {
    seq(|requests|, k requires 0 <= k < |requests| =>
      SlotsOnlyGrow(requests, k + 1, |requests|);
      CandidateObject(rules, k + 1, SlotsBefore(requests, k) + 1, requests[k]))
  }

  function FrameText(rules: Rules, requests: seq<CandidateRequest>): string
    requires Numerable(requests)
  {
    "{\"candidates\":" + ListText(CandidateObjects(rules, requests)) + ",\"task\":\"validate_direct_factual_support\"}"
  }

  predicate WithinCharacters(rules: Rules, requests: seq<CandidateRequest>) {
    Numerable(requests) && |FrameText(rules, requests)| <= MAX_FRAME_CHARS
  }

  predicate WithinTokens(rules: Rules, requests: seq<CandidateRequest>) {
    Numerable(requests) && rules.withinTokens(FrameText(rules, requests))
  }

  /** What the renderer demands of a batch. */
  predicate Renders(rules: Rules, requests: seq<CandidateRequest>) {
    && 1 <= |requests| <= MAX_CANDIDATES_PER_BATCH
    && (forall k :: 0 <= k < |requests| ==> TextsAdmitted(rules, requests[k]))
    && SlotCount(requests) <= MAX_EVIDENCE_SLOTS
    && WithinCharacters(rules, requests) && WithinTokens(rules, requests)
  }

  function Range(from: nat, count: nat): (r: seq<nat>)
    ensures |r| == count && forall i :: 0 <= i < count ==> r[i] == from + i
  {
    seq(count, i requires 0 <= i < count => from + i)
  }

  function FieldsOf(r: CandidateRequest): seq<ClaimField> { [r.claims[0].field, r.claims[1].field] }

  /** Candidate `k` has its own fields and the next free evidence slots. */
  predicate Numbered(requests: seq<CandidateRequest>, fields: seq<seq<ClaimField>>, evidenceOf: seq<seq<nat>>, k: nat) {
    && k < |requests| && k < |fields| && k < |evidenceOf|
    && fields[k] == FieldsOf(requests[k])
    && evidenceOf[k] == Range(SlotsBefore(requests, k) + 1, |requests[k].evidence|)
  }

  predicate FrameOf(requests: seq<CandidateRequest>, f: Frame) {
    && f.candidateSlots == Range(1, |requests|)
    && f.evidenceSlots == Range(1, SlotCount(requests))
    && |f.fields| == |f.evidenceOf| == |requests|
    && forall k :: 0 <= k < |requests| ==> Numbered(requests, f.fields, f.evidenceOf, k)
  }

  /** The inner loop over one candidate: its claims, then its evidence under the next ordinals. */
  method NumberEvidence(rules: Rules, request: CandidateRequest, used: nat) returns (r: Result<seq<nat>>)
    requires used <= MAX_EVIDENCE_SLOTS
    ensures r.Ok? <==> TextsAdmitted(rules, request) && used + |request.evidence| <= MAX_EVIDENCE_SLOTS
    ensures r.Ok? ==> r.value == Range(used + 1, |request.evidence|)
  {
    for c := 0 to |request.claims|
      invariant forall i :: 0 <= i < c ==> ClaimAdmitted(rules, request.claims[i])
    {
      if !ClaimAdmitted(rules, request.claims[c]) {
        return Err("validation claim is invalid");
      }
    }
    var slots: seq<nat> := [];
    for e := 0 to |request.evidence|
      invariant used + e <= MAX_EVIDENCE_SLOTS
      invariant slots == Range(used + 1, e)
      invariant forall i :: 0 <= i < e ==> EvidenceAdmitted(rules, request.evidence[i])
    {
      if used + e + 1 > MAX_EVIDENCE_SLOTS {
        return Err("validation evidence slot count is invalid");
      }
      if !EvidenceAdmitted(rules, request.evidence[e]) {
        return Err("sensitive input detected");
      }
      slots := slots + [used + e + 1];
    }
    return Ok(slots);
  }

  lemma NumberedNext(requests: seq<CandidateRequest>, fields: seq<seq<ClaimField>>, evidenceOf: seq<seq<nat>>, slots: seq<nat>)
    requires |fields| == |evidenceOf| < |requests|
    requires forall i :: 0 <= i < |fields| ==> Numbered(requests, fields, evidenceOf, i)
    requires slots == Range(SlotsBefore(requests, |fields|) + 1, |requests[|fields|].evidence|)
    ensures forall i :: 0 <= i <= |fields| ==> Numbered(requests, fields + [FieldsOf(requests[|fields|])], evidenceOf + [slots], i)
  {
    forall i | 0 <= i <= |fields| ensures Numbered(requests, fields + [FieldsOf(requests[|fields|])], evidenceOf + [slots], i) {
      assert i < |fields| ==> Numbered(requests, fields, evidenceOf, i);
    }
  }

  /** The caps of the finished text, in characters and then in tokens. */
  method CheckCaps(rules: Rules, requests: seq<CandidateRequest>) returns (r: Result<()>)
    requires Numerable(requests)
    ensures r.Ok? <==> WithinCharacters(rules, requests) && WithinTokens(rules, requests)
  {
    hide Numerable;
    var text := FrameText(rules, requests);
    if |text| > MAX_FRAME_CHARS {
      return Err("validation input character cap exceeded");
    }
    if !rules.withinTokens(text) {
      return Err("validation input token cap exceeded");
    }
    return Ok(());
  }

  method Render(rules: Rules, requests: seq<CandidateRequest>) returns (r: Result<Frame>)
    ensures r.Ok? <==> Renders(rules, requests)
    ensures r.Ok? ==> FrameOf(requests, r.value)
  {
    if !(1 <= |requests| <= MAX_CANDIDATES_PER_BATCH) {
      return Err("validation candidate count is invalid");
    }
    hide TextsAdmitted, FrameText, WithinCharacters, WithinTokens, FieldsOf, Numbered;
    var candidateSlots: seq<nat>, evidenceSlots: seq<nat> := [], [];
    var fields: seq<seq<ClaimField>>, evidenceOf: seq<seq<nat>> := [], [];
    for k := 0 to |requests|
      invariant |evidenceSlots| == SlotsBefore(requests, k) <= MAX_EVIDENCE_SLOTS
      invariant candidateSlots == Range(1, k) && evidenceSlots == Range(1, |evidenceSlots|)
      invariant |fields| == |evidenceOf| == k
      invariant forall i :: 0 <= i < k ==> TextsAdmitted(rules, requests[i])
      invariant forall i :: 0 <= i < k ==> Numbered(requests, fields, evidenceOf, i)
    {
      var request := requests[k];
      var numbered := NumberEvidence(rules, request, |evidenceSlots|);
      SlotsOnlyGrow(requests, k + 1, |requests|);
      if numbered.Err? {
        return Err(numbered.reason);
      }
      candidateSlots := candidateSlots + [k + 1];
      evidenceSlots := evidenceSlots + numbered.value;
      NumberedNext(requests, fields, evidenceOf, numbered.value);
      fields := fields + [FieldsOf(request)];
      evidenceOf := evidenceOf + [numbered.value];
    }
    var capped := CheckCaps(rules, requests);
    return if capped.Err? then Err(capped.reason) else Ok(Frame(candidateSlots, evidenceSlots, fields, evidenceOf));
  }

  /** The sizer renders the batch and counts its evidence slots. */
  function Measure(rules: Rules, requests: seq<CandidateRequest>): Result<nat> {
    if Renders(rules, requests) then Ok(SlotCount(requests)) else Err("validation frame is refused")
  }

  lemma {:induction false} SlotsOnlyGrow(requests: seq<CandidateRequest>, i: nat, j: nat)
    requires i <= j <= |requests|
    ensures SlotsBefore(requests, i) + (j - i) <= SlotsBefore(requests, j)
    decreases j
  {
    if i < j {
      SlotsOnlyGrow(requests, i, j - 1);
    }
  }

  lemma {:induction false} SlotsOfPrefix(requests: seq<CandidateRequest>, longer: seq<CandidateRequest>, k: nat)
    requires k <= |requests| && k <= |longer| && requests[..k] == longer[..k]
    ensures SlotsBefore(requests, k) == SlotsBefore(longer, k)
    decreases k
  {
    if k > 0 {
      assert requests[..k - 1] == requests[..k][..k - 1] && longer[..k - 1] == longer[..k][..k - 1];
      assert requests[k - 1] == requests[..k][k - 1] == longer[k - 1];
      SlotsOfPrefix(requests, longer, k - 1);
    }
  }

  /** Every evidence slot belongs to one candidate and names one of that candidate's texts. */
  lemma SlotHasOneOwner(requests: seq<CandidateRequest>, f: Frame, slot: nat) returns (k: nat, e: nat)
    requires FrameOf(requests, f) && 1 <= slot <= SlotCount(requests)
    ensures slot in f.evidenceSlots
    ensures k < |requests| && e < |f.evidenceOf[k]| == |requests[k].evidence| && f.evidenceOf[k][e] == slot
    ensures forall other :: 0 <= other < |requests| && other != k ==> slot !in f.evidenceOf[other]
  {
    k := OwnerBelow(requests, |requests|, slot);
    assert Numbered(requests, f.fields, f.evidenceOf, k);
    e := slot - 1 - SlotsBefore(requests, k);
    assert f.evidenceSlots[slot - 1] == slot;
    forall other | 0 <= other < |requests| && other != k ensures slot !in f.evidenceOf[other] {
      SlotsOnlyGrow(requests, if other < k then other + 1 else k + 1, if other < k then k else other);
      assert Numbered(requests, f.fields, f.evidenceOf, other);
    }
  }

  lemma {:induction false} OwnerBelow(requests: seq<CandidateRequest>, n: nat, slot: nat) returns (k: nat)
    requires n <= |requests| && 1 <= slot <= SlotsBefore(requests, n)
    ensures k < n && SlotsBefore(requests, k) < slot <= SlotsBefore(requests, k) + |requests[k].evidence|
    decreases n
  {
    if slot > SlotsBefore(requests, n - 1) {
      k := n - 1;
    } else {
      k := OwnerBelow(requests, n - 1, slot);
    }
  }

  // ---- Oversize frames stay oversize

  function Without(s: seq<CandidateRequest>, k: nat): seq<CandidateRequest>
    requires k < |s|
  {
    s[..k] + s[k + 1..]
  }

  /** Dropping a candidate never takes a frame over the token cap. */
  ghost predicate TokensStayWithin(rules: Rules) {
    forall s: seq<CandidateRequest>, k: nat :: k < |s| && WithinTokens(rules, s) && Numerable(Without(s, k)) ==> WithinTokens(rules, Without(s, k))
  }

  lemma {:induction false} CommasLength(parts: seq<string>)
    ensures |Commas(parts)| == Sum(EvidenceJson.Lengths(parts)) + if parts == [] then 0 else |parts| - 1
  {
    if parts != [] {
      CommasLength(parts[1..]);
      assert EvidenceJson.Lengths(parts)[1..] == EvidenceJson.Lengths(parts[1..]);
    }
  }

  /** Slot ids all have three characters, so the size of a candidate does not depend on its place. */
  function CandidateSize(rules: Rules, r: CandidateRequest): nat { |CandidateObject(rules, 0, 0, r)| }

  lemma SizeIsPlaceFree(rules: Rules, slot: nat, from: nat, r: CandidateRequest)
    requires slot < 100 && from + |r.evidence| <= 100
    ensures |CandidateObject(rules, slot, from, r)| == CandidateSize(rules, r)
  {
    hide Quoted, SlotText, Sum, Commas, ClaimObject, SlotList, EvidenceObjects, FieldName;
    SlotListLength(from, |r.evidence|);
    SlotListLength(0, |r.evidence|);
    EvidenceLength(rules, from, r.evidence);
    EvidenceLength(rules, 0, r.evidence);
  }

  lemma SlotListLength(from: nat, count: nat)
    requires from + count <= 100
    ensures |Commas(SlotList(from, count))| == |Commas(SlotList(0, count))|
  {
    hide SlotText, Sum, Commas;
    CommasLength(SlotList(from, count));
    CommasLength(SlotList(0, count));
    forall i | 0 <= i < count ensures |SlotList(from, count)[i]| == 5 == |SlotList(0, count)[i]| {
      assert |SlotText('E', from + i)| == 3 == |SlotText('E', i)|;
    }
    assert EvidenceJson.Lengths(SlotList(from, count)) == EvidenceJson.Lengths(SlotList(0, count));
  }

  lemma EvidenceLength(rules: Rules, from: nat, texts: seq<string>)
    requires from + |texts| <= 100
    ensures |Commas(EvidenceObjects(rules, from, texts))| == |Commas(EvidenceObjects(rules, 0, texts))|
  {
    hide SlotText, Sum, Commas, Quoted;
    CommasLength(EvidenceObjects(rules, from, texts));
    CommasLength(EvidenceObjects(rules, 0, texts));
    assert EvidenceJson.Lengths(EvidenceObjects(rules, from, texts)) == EvidenceJson.Lengths(EvidenceObjects(rules, 0, texts));
  }

  function EmptyFrameSize(): nat { |"{\"candidates\":[],\"task\":\"validate_direct_factual_support\"}"| }

  function Sizes(rules: Rules, requests: seq<CandidateRequest>): seq<nat> {
    seq(|requests|, k requires 0 <= k < |requests| => CandidateSize(rules, requests[k]))
  }

  lemma ObjectLengths(rules: Rules, requests: seq<CandidateRequest>)
    requires Numerable(requests)
    ensures EvidenceJson.Lengths(CandidateObjects(rules, requests)) == Sizes(rules, requests)
  {
    hide CandidateSize, CandidateObject, SlotsBefore;
    forall k | 0 <= k < |requests| ensures |CandidateObjects(rules, requests)[k]| == CandidateSize(rules, requests[k]) {
      SlotsOnlyGrow(requests, k + 1, |requests|);
      SlotsStep(requests, k);
      SizeIsPlaceFree(rules, k + 1, SlotsBefore(requests, k) + 1, requests[k]);
    }
  }

  lemma SlotsStep(requests: seq<CandidateRequest>, k: nat)
    requires k < |requests|
    ensures SlotsBefore(requests, k + 1) == SlotsBefore(requests, k) + |requests[k].evidence|
  {
  }

  lemma FrameLength(rules: Rules, requests: seq<CandidateRequest>)
    requires Numerable(requests)
    ensures |FrameText(rules, requests)| == EmptyFrameSize() + Sum(Sizes(rules, requests)) + if requests == [] then 0 else |requests| - 1
  {
    hide CandidateSize, CandidateObjects, Commas, Sum, Numerable;
    CommasLength(CandidateObjects(rules, requests));
    ObjectLengths(rules, requests);
  }

  /** Dropping a candidate shortens the canonical text. */
  lemma DroppingShortens(rules: Rules, s: seq<CandidateRequest>, k: nat)
    requires k < |s| && Numerable(s) && Numerable(Without(s, k))
    ensures |FrameText(rules, Without(s, k))| <= |FrameText(rules, s)|
  {
    hide FrameText, CandidateSize, Numerable;
    FrameLength(rules, s);
    FrameLength(rules, Without(s, k));
    SumAppend(Sizes(rules, s[..k]), Sizes(rules, s[k + 1..]));
    SumAppend(Sizes(rules, s[..k]), [CandidateSize(rules, s[k])] + Sizes(rules, s[k + 1..]));
    assert Sizes(rules, Without(s, k)) == Sizes(rules, s[..k]) + Sizes(rules, s[k + 1..]);
    assert Sizes(rules, s) == Sizes(rules, s[..k]) + ([CandidateSize(rules, s[k])] + Sizes(rules, s[k + 1..]));
    assert ([CandidateSize(rules, s[k])] + Sizes(rules, s[k + 1..]))[1..] == Sizes(rules, s[k + 1..]);
  }

  lemma {:induction false} SlotsWithout(s: seq<CandidateRequest>, k: nat, n: nat)
    requires k < |s| && n < |s|
    ensures SlotsBefore(Without(s, k), n) == (if n <= k then SlotsBefore(s, n) else SlotsBefore(s, n + 1) - |s[k].evidence|)
    decreases n
  {
    if n == 0 {
    } else {
      SlotsWithout(s, k, n - 1);
      assert Without(s, k)[n - 1] == if n - 1 < k then s[n - 1] else s[n];
    }
  }

  lemma RendersWithout(rules: Rules, s: seq<CandidateRequest>, k: nat)
    requires TokensStayWithin(rules) && Renders(rules, s) && k < |s| && |s| > 1
    ensures Renders(rules, Without(s, k))
  {
    hide FrameText;
    SlotsWithout(s, k, |s| - 1);
    if k == |s| - 1 {
      SlotsOnlyGrow(s, k, |s|);
    }
    DroppingShortens(rules, s, k);
    forall i | 0 <= i < |s| - 1 ensures TextsAdmitted(rules, Without(s, k)[i]) {
      assert Without(s, k)[i] == if i < k then s[i] else s[i + 1];
    }
  }

  /** A part of a frame that renders also renders. */
  lemma {:induction false} PartRenders(rules: Rules, before: seq<CandidateRequest>, part: seq<CandidateRequest>, after: seq<CandidateRequest>)
    requires TokensStayWithin(rules) && Renders(rules, before + part + after) && part != []
    ensures Renders(rules, part)
    decreases |before| + |after|
  {
    hide Renders, TokensStayWithin;
    var whole := before + part + after;
    if before != [] {
      RendersWithout(rules, whole, 0);
      assert Without(whole, 0) == before[1..] + part + after;
      PartRenders(rules, before[1..], part, after);
    } else if after != [] {
      RendersWithout(rules, whole, |part|);
      assert Without(whole, |part|) == before + part + after[1..];
      PartRenders(rules, before, part, after[1..]);
    } else {
      assert whole == part;
    }
  }

  // ---- What a frame shows

  /** Everything a rendered frame shows was found non-empty and scanned, claim texts are at most 2000
      characters, and the frame is at most 4 candidates, 12 texts of evidence and 12000 characters. */
  lemma ShownIsScanned(rules: Rules, requests: seq<CandidateRequest>)
    ensures Renders(rules, requests) <==>
            && 1 <= |requests| <= 4 && SlotsBefore(requests, |requests|) <= 12
            && (forall k, i :: 0 <= k < |requests| && 0 <= i < |requests[k].claims| ==> ShownClaim(rules, rules.strip(requests[k].claims[i].text)))
            && (forall k, i :: 0 <= k < |requests| && 0 <= i < |requests[k].evidence| ==> ShownEvidence(rules, rules.strip(requests[k].evidence[i])))
            && |FrameText(rules, requests)| <= 12_000 && rules.withinTokens(FrameText(rules, requests))
  {
    hide FrameText, SlotsBefore;
    forall k | 0 <= k < |requests| ensures TextsAdmitted(rules, requests[k]) <==>
      && (forall i :: 0 <= i < |requests[k].claims| ==> ShownClaim(rules, rules.strip(requests[k].claims[i].text)))
      && (forall i :: 0 <= i < |requests[k].evidence| ==> ShownEvidence(rules, rules.strip(requests[k].evidence[i])))
    {}
  }

  predicate ShownClaim(rules: Rules, shown: string) { shown != "" && |shown| <= 2_000 && rules.scan(shown) }

  predicate ShownEvidence(rules: Rules, shown: string) { shown != "" && rules.scan(shown) }
}
