/** First-fit packing of review candidates into validation batches. */
module FirstFitPacking {
  import opened Outcomes
  import opened Sorting
  import opened AutoReviewPolicy
  import opened ValidationFrame
  import ValidationProtocol

  const MAX_CONSIDERED := 5
  const MAX_BATCHES := 2

  datatype PackCandidate = PackCandidate(claim: ValidationProtocol.Candidate, request: CandidateRequest, policy: PolicyInput)

  predicate KeyLe(a: PackCandidate, b: PackCandidate) { StringLe(a.claim.key, b.claim.key) }

  function RequestsOf(cs: seq<PackCandidate>): (r: seq<CandidateRequest>)
    ensures |r| == |cs| && forall i :: 0 <= i < |cs| ==> r[i] == cs[i].request
  {
    seq(|cs|, i requires 0 <= i < |cs| => cs[i].request)
  }

  /** The sizer accepts these candidates as one batch. */
  predicate Fits(rules: Rules, cs: seq<PackCandidate>) {
    var size := Measure(rules, RequestsOf(cs));
    size.Ok? && size.value <= MAX_EVIDENCE_SLOTS
  }

  predicate FitsIn(rules: Rules, bin: seq<PackCandidate>, c: PackCandidate) {
    |bin| + 1 <= MAX_CANDIDATES_PER_BATCH && Fits(rules, bin + [c])
  }

  /** The first bin, from `from` on, that takes the candidate. */
  function FirstFit(rules: Rules, bins: seq<seq<PackCandidate>>, c: PackCandidate, from: nat): (r: Option<nat>)
    requires from <= |bins|
    ensures r.Some? ==> from <= r.value < |bins| && FitsIn(rules, bins[r.value], c)
    decreases |bins| - from
  {
    if from == |bins| then None
    else if FitsIn(rules, bins[from], c) then Some(from)
    else FirstFit(rules, bins, c, from + 1)
  }

  lemma {:induction false} EarlierBinsRefuse(rules: Rules, bins: seq<seq<PackCandidate>>, c: PackCandidate, from: nat)
    requires from <= |bins|
    ensures var r := FirstFit(rules, bins, c, from);
            forall i :: from <= i < (if r.Some? then r.value else |bins|) ==> !FitsIn(rules, bins[i], c)
    decreases |bins| - from
  {
    hide FitsIn;
    if from < |bins| && !FitsIn(rules, bins[from], c) {
      EarlierBinsRefuse(rules, bins, c, from + 1);
    }
  }

  /** Bins, and the candidates left to people. */
  datatype Packing = Packing(bins: seq<seq<PackCandidate>>, rejected: seq<PackCandidate>)

  function PlaceNext(rules: Rules, p: Packing, c: PackCandidate, index: nat): Packing {
    if index >= MAX_CONSIDERED then p.(rejected := p.rejected + [c])
    else match FirstFit(rules, p.bins, c, 0)
      case Some(b) => p.(bins := p.bins[b := p.bins[b] + [c]])
      case None =>
        if Fits(rules, [c]) && |p.bins| < MAX_BATCHES then p.(bins := p.bins + [[c]])
        else p.(rejected := p.rejected + [c])
  }

  /** Packing of the first `n` candidates, in order. */
  function Pack(rules: Rules, ordered: seq<PackCandidate>, n: nat): Packing
    requires n <= |ordered|
  {
    if n == 0 then Packing([], []) else PlaceNext(rules, Pack(rules, ordered, n - 1), ordered[n - 1], n - 1)
  }

  function PackSorted(rules: Rules, candidates: seq<PackCandidate>): Packing {
    var ordered := SortBy(KeyLe, candidates);
    Pack(rules, ordered, |ordered|)
  }

  function HumanOnly(rejected: seq<PackCandidate>): seq<int> {
    if rejected == [] then []
    else
      var last := rejected[|rejected| - 1].claim.reviewItem;
      HumanOnly(rejected[..|rejected| - 1]) + (if last > 0 then [last] else [])
  }

  /** A batch ready to claim: its claims and policy inputs follow the rendered slots. */
  datatype Batch = Batch(claims: seq<ValidationProtocol.Candidate>, frame: Frame, inputs: seq<PolicyInput>)

  predicate Prepared(bin: seq<PackCandidate>, b: Batch) {
    && FrameOf(RequestsOf(bin), b.frame)
    && |b.claims| == |b.inputs| == |bin| == |b.frame.evidenceOf|
    && forall k :: 0 <= k < |bin| ==> PreparedAt(bin, b, k)
  }

  predicate PreparedAt(bin: seq<PackCandidate>, b: Batch, k: nat)
    requires |b.claims| == |b.inputs| == |bin| == |b.frame.evidenceOf| && k < |bin|
  {
    && b.claims[k] == bin[k].claim
    && b.inputs[k] == bin[k].policy.(expectedSlot := k + 1, expectedEvidence := b.frame.evidenceOf[k])
  }

  method PreparePartition(rules: Rules, candidates: seq<PackCandidate>) returns (batches: seq<Batch>, humanOnly: seq<int>)
    ensures var p := PackSorted(rules, candidates);
            && humanOnly == HumanOnly(p.rejected)
            && |batches| == |p.bins|
            && forall i :: 0 <= i < |batches| ==> Prepared(p.bins[i], batches[i])
  {
    assert HumanOnly([]) == [];
    hide Fits, HumanOnly, SortBy, PlaceNext, FirstFit, Prepared;
    var ordered := SortBy(KeyLe, candidates);
    var bins: seq<seq<PackCandidate>> := [];
    ghost var rejected: seq<PackCandidate> := [];
    humanOnly := [];
    for index := 0 to |ordered|
      invariant Packing(bins, rejected) == Pack(rules, ordered, index)
      invariant humanOnly == HumanOnly(rejected)
    {
      var c := ordered[index];
      PackOne(rules, ordered, index);
      PlaceSteps(rules, Packing(bins, rejected), c, index);
      HumanOnlyOne(rejected, c);
      if index >= MAX_CONSIDERED {
        humanOnly := humanOnly + (if c.claim.reviewItem > 0 then [c.claim.reviewItem] else []);
        rejected := rejected + [c];
        continue;
      }
      var placed := PlaceInBins(rules, bins, c);
      if placed.Some? {
        bins := bins[placed.value := bins[placed.value] + [c]];
      } else if !Fits(rules, [c]) || |bins| >= MAX_BATCHES {
        humanOnly := humanOnly + (if c.claim.reviewItem > 0 then [c.claim.reviewItem] else []);
        rejected := rejected + [c];
      } else {
        bins := bins + [[c]];
      }
    }
    PackShape(rules, ordered, |ordered|);
    batches := PrepareAll(rules, bins);
  }

  method PrepareAll(rules: Rules, bins: seq<seq<PackCandidate>>) returns (batches: seq<Batch>)
    requires forall i :: 0 <= i < |bins| ==> Fits(rules, bins[i])
    ensures |batches| == |bins| && forall i :: 0 <= i < |batches| ==> Prepared(bins[i], batches[i])
  {
    hide Fits, Prepared;
    batches := [];
    for i := 0 to |bins|
      invariant |batches| == i && forall j :: 0 <= j < i ==> Prepared(bins[j], batches[j])
    {
      var batch := Prepare(rules, bins[i]);
      batches := batches + [batch];
    }
  }

  method PlaceInBins(rules: Rules, bins: seq<seq<PackCandidate>>, c: PackCandidate) returns (placed: Option<nat>)
    ensures placed == FirstFit(rules, bins, c, 0)
  {
    for b := 0 to |bins|
      invariant FirstFit(rules, bins, c, 0) == FirstFit(rules, bins, c, b)
    {
      hide Fits;
      if |bins[b]| + 1 > MAX_CANDIDATES_PER_BATCH {
        continue;
      }
      if Fits(rules, bins[b] + [c]) {
        return Some(b);
      }
    }
    return None;
  }

  /** The second rendering of a bin cannot refuse: exactly this batch was measured. */
  method Prepare(rules: Rules, bin: seq<PackCandidate>) returns (b: Batch)
    requires Fits(rules, bin)
    ensures Prepared(bin, b)
  {
    var rendered := Render(rules, RequestsOf(bin));
    assert rendered.Ok?;
    var frame := rendered.value;
    b := Batch(seq(|bin|, i requires 0 <= i < |bin| => bin[i].claim), frame,
               seq(|bin|, i requires 0 <= i < |bin| && |frame.evidenceOf| == |bin| =>
                 bin[i].policy.(expectedSlot := i + 1, expectedEvidence := frame.evidenceOf[i])));
  }

  lemma PlaceSteps(rules: Rules, p: Packing, c: PackCandidate, index: nat)
    ensures PlaceNext(rules, p, c, index) ==
            var b := FirstFit(rules, p.bins, c, 0);
            if index >= MAX_CONSIDERED then p.(rejected := p.rejected + [c])
            else if b.Some? then p.(bins := p.bins[b.value := p.bins[b.value] + [c]])
            else if Fits(rules, [c]) && |p.bins| < MAX_BATCHES then p.(bins := p.bins + [[c]])
            else p.(rejected := p.rejected + [c])
  {}

  lemma PackOne(rules: Rules, ordered: seq<PackCandidate>, n: nat)
    requires n < |ordered|
    ensures Pack(rules, ordered, n + 1) == PlaceNext(rules, Pack(rules, ordered, n), ordered[n], n)
  {}

  lemma HumanOnlyOne(rejected: seq<PackCandidate>, c: PackCandidate)
    ensures HumanOnly(rejected + [c]) == HumanOnly(rejected) + if c.claim.reviewItem > 0 then [c.claim.reviewItem] else []
  {}

  // ---- What a packing guarantees

  function Flatten(bins: seq<seq<PackCandidate>>): seq<PackCandidate> {
    if bins == [] then [] else Flatten(bins[..|bins| - 1]) + bins[|bins| - 1]
  }

  lemma FlattenLast(bins: seq<seq<PackCandidate>>)
    requires bins != []
    ensures multiset(Flatten(bins)) == multiset(Flatten(bins[..|bins| - 1])) + multiset(bins[|bins| - 1])
  {}

  lemma {:induction false} FlattenAdd(bins: seq<seq<PackCandidate>>, b: nat, c: PackCandidate)
    requires b < |bins|
    ensures multiset(Flatten(bins[b := bins[b] + [c]])) == multiset(Flatten(bins)) + multiset{c}
    decreases |bins|
  {
    hide Flatten;
    var last := |bins| - 1;
    var longer := bins[b := bins[b] + [c]];
    FlattenLast(bins);
    FlattenLast(longer);
    if b == last {
      assert longer[..last] == bins[..last];
    } else {
      FlattenAdd(bins[..last], b, c);
      assert longer[..last] == bins[..last][b := bins[b] + [c]];
    }
  }

  lemma PlacePartitions(rules: Rules, p: Packing, c: PackCandidate, index: nat)
    ensures var q := PlaceNext(rules, p, c, index);
            multiset(Flatten(q.bins)) + multiset(q.rejected) == multiset(Flatten(p.bins)) + multiset(p.rejected) + multiset{c}
  {
    hide Fits;
    var b := FirstFit(rules, p.bins, c, 0);
    if b.Some? {
      FlattenAdd(p.bins, b.value, c);
    } else {
      assert (p.bins + [[c]])[..|p.bins|] == p.bins;
    }
  }

  lemma {:induction false} PackPartitions(rules: Rules, ordered: seq<PackCandidate>, n: nat)
    requires n <= |ordered|
    ensures var p := Pack(rules, ordered, n);
            multiset(Flatten(p.bins)) + multiset(p.rejected) == multiset(ordered[..n])
    decreases n
  {
    hide PlaceNext;
    if n > 0 {
      PackPartitions(rules, ordered, n - 1);
      PlacePartitions(rules, Pack(rules, ordered, n - 1), ordered[n - 1], n - 1);
      assert ordered[..n] == ordered[..n - 1] + [ordered[n - 1]];
    }
  }

  predicate BinOk(rules: Rules, bin: seq<PackCandidate>) {
    1 <= |bin| <= MAX_CANDIDATES_PER_BATCH && Fits(rules, bin)
  }

  ghost predicate PackOk(rules: Rules, seen: seq<PackCandidate>, p: Packing) {
    && |p.bins| <= MAX_BATCHES
    && (forall i :: 0 <= i < |p.bins| ==> BinOk(rules, p.bins[i]))
    && (SortedBy(KeyLe, seen) ==> forall i :: 0 <= i < |p.bins| ==> SortedBy(KeyLe, p.bins[i]) && Within(p.bins[i], seen))
  }

  ghost predicate Within(bin: seq<PackCandidate>, seen: seq<PackCandidate>) {
    forall c :: c in bin ==> c in seen
  }

  lemma PlaceKeepsShape(rules: Rules, seen: seq<PackCandidate>, p: Packing, c: PackCandidate, index: nat)
    requires PackOk(rules, seen, p)
    ensures PackOk(rules, seen + [c], PlaceNext(rules, p, c, index))
  {
    hide Fits;
    var q := PlaceNext(rules, p, c, index);
    var longer := seen + [c];
    if SortedBy(KeyLe, longer) {
      assert seen == longer[..|seen|];
      forall i | 0 <= i < |q.bins| ensures SortedBy(KeyLe, q.bins[i]) && Within(q.bins[i], longer) {
        if i < |p.bins| && q.bins[i] != p.bins[i] {
          forall x | x in p.bins[i] ensures KeyLe(x, c) {
            var k :| 0 <= k < |seen| && seen[k] == x;
            assert KeyLe(longer[k], longer[|seen|]);
          }
        }
      }
    }
  }

  lemma {:induction false} PackShape(rules: Rules, ordered: seq<PackCandidate>, n: nat)
    requires n <= |ordered|
    ensures PackOk(rules, ordered[..n], Pack(rules, ordered, n))
    decreases n
  {
    hide PackOk, PlaceNext;
    if n > 0 {
      PackShape(rules, ordered, n - 1);
      PlaceKeepsShape(rules, ordered[..n - 1], Pack(rules, ordered, n - 1), ordered[n - 1], n - 1);
      assert ordered[..n] == ordered[..n - 1] + [ordered[n - 1]];
    } else {
      NothingPacked(rules, ordered);
    }
  }

  lemma NothingPacked(rules: Rules, ordered: seq<PackCandidate>)
    ensures PackOk(rules, ordered[..0], Pack(rules, ordered, 0))
  {}

  /** Batches and rejected candidates are together exactly the input; at most two batches of one to
      four candidates, five in all, twelve evidence slots each; every batch is in key order, and
      exactly its candidates were measured to fit. */
  lemma PackingIsAPartition(rules: Rules, candidates: seq<PackCandidate>)
    ensures var p := PackSorted(rules, candidates);
            && multiset(Flatten(p.bins)) + multiset(p.rejected) == multiset(candidates)
            && |p.bins| <= MAX_BATCHES && |Flatten(p.bins)| <= MAX_CONSIDERED
            && forall i :: 0 <= i < |p.bins| ==>
              && 1 <= |p.bins[i]| <= MAX_CANDIDATES_PER_BATCH
              && Renders(rules, RequestsOf(p.bins[i])) && SlotCount(RequestsOf(p.bins[i])) <= MAX_EVIDENCE_SLOTS
              && SortedBy(KeyLe, p.bins[i])
  {
    var ordered := SortBy(KeyLe, candidates);
    KeyOrderIsTotal();
    SortByIsSorted(KeyLe, candidates);
    PackPartitions(rules, ordered, |ordered|);
    assert ordered[..|ordered|] == ordered;
    PackShape(rules, ordered, |ordered|);
    AtMostFive(rules, ordered, |ordered|);
    var p := Pack(rules, ordered, |ordered|);
    forall i | 0 <= i < |p.bins| ensures BinOk(rules, p.bins[i]) {}
  }

  lemma KeyOrderIsTotal()
    ensures TotalPreorder(KeyLe)
  {
    StringLeIsTotalOrder();
    forall a, b ensures KeyLe(a, b) || KeyLe(b, a) {
      StringLeTotal(a.claim.key, b.claim.key);
    }
    forall a, b, c | KeyLe(a, b) && KeyLe(b, c) ensures KeyLe(a, c) {
      StringLeTransitive(a.claim.key, b.claim.key, c.claim.key);
    }
  }

  lemma PlaceAddsOne(rules: Rules, p: Packing, c: PackCandidate, index: nat)
    ensures |Flatten(PlaceNext(rules, p, c, index).bins)| <= |Flatten(p.bins)| + if index < MAX_CONSIDERED then 1 else 0
  {
    hide Fits;
    var b := FirstFit(rules, p.bins, c, 0);
    if b.Some? {
      FlattenAdd(p.bins, b.value, c);
      var longer := p.bins[b.value := p.bins[b.value] + [c]];
      assert |Flatten(longer)| == |multiset(Flatten(longer))| && |Flatten(p.bins)| == |multiset(Flatten(p.bins))|;
    } else {
      assert (p.bins + [[c]])[..|p.bins|] == p.bins;
    }
  }

  lemma {:induction false} AtMostFive(rules: Rules, ordered: seq<PackCandidate>, n: nat)
    requires n <= |ordered|
    ensures |Flatten(Pack(rules, ordered, n).bins)| <= (if n < MAX_CONSIDERED then n else MAX_CONSIDERED)
    decreases n
  {
    hide PlaceNext;
    if n > 0 {
      AtMostFive(rules, ordered, n - 1);
      PlaceAddsOne(rules, Pack(rules, ordered, n - 1), ordered[n - 1], n - 1);
    }
  }

  predicate DistinctKeys(candidates: seq<PackCandidate>) {
    forall i, j :: 0 <= i < j < |candidates| ==> candidates[i].claim.key != candidates[j].claim.key
  }

  /** With distinct keys the partition does not depend on the order the candidates arrive in. */
  lemma PackingIgnoresInputOrder(rules: Rules, a: seq<PackCandidate>, b: seq<PackCandidate>)
    requires multiset(a) == multiset(b) && DistinctKeys(a)
    ensures PackSorted(rules, a) == PackSorted(rules, b)
  {
    KeyOrderIsTotal();
    SortByIsSorted(KeyLe, a);
    SortByIsSorted(KeyLe, b);
    var x, y := SortBy(KeyLe, a), SortBy(KeyLe, b);
    forall i, j | 0 <= i < |x| && 0 <= j < |x| && KeyLe(x[i], x[j]) && KeyLe(x[j], x[i]) ensures x[i] == x[j] {
      StringLeTotal(x[i].claim.key, x[j].claim.key);
      assert x[i] in multiset(a) && x[j] in multiset(a);
      var k :| 0 <= k < |a| && a[k] == x[i];
      var l :| 0 <= l < |a| && a[l] == x[j];
    }
    SortedIsUnique(KeyLe, x, y);
  }

  // ---- No considered candidate was turned away needlessly

  /** `q` has the bins of `p`, each possibly longer by candidates of `later`, then bins of such. */
  ghost predicate Grown(p: Packing, q: Packing, later: seq<PackCandidate>) {
    && |p.bins| <= |q.bins|
    && (forall j :: 0 <= j < |p.bins| ==> p.bins[j] <= q.bins[j] && Within(q.bins[j][|p.bins[j]|..], later))
  }

  lemma PlaceGrows(rules: Rules, p: Packing, q: Packing, later: seq<PackCandidate>, c: PackCandidate, index: nat)
    requires Grown(p, q, later)
    ensures Grown(p, PlaceNext(rules, q, c, index), later + [c])
  {
    hide Fits, FitsIn;
  }

  lemma {:induction false} PackGrows(rules: Rules, ordered: seq<PackCandidate>, i: nat, n: nat)
    requires i <= n <= |ordered|
    ensures Grown(Pack(rules, ordered, i), Pack(rules, ordered, n), ordered[i..n])
    decreases n
  {
    hide PlaceNext;
    if i < n {
      PackGrows(rules, ordered, i, n - 1);
      PlaceGrows(rules, Pack(rules, ordered, i), Pack(rules, ordered, n - 1), ordered[i..n - 1], ordered[n - 1], n - 1);
      assert ordered[i..n] == ordered[i..n - 1] + [ordered[n - 1]];
    }
  }

  /** Each rejected candidate was turned away at its own turn. */
  lemma {:induction false} RejectedAtItsTurn(rules: Rules, ordered: seq<PackCandidate>, n: nat, c: PackCandidate) returns (i: nat)
    requires n <= |ordered| && c in Pack(rules, ordered, n).rejected
    ensures i < n && ordered[i] == c && Pack(rules, ordered, i + 1).bins == Pack(rules, ordered, i).bins
    ensures i < MAX_CONSIDERED ==>
      && FirstFit(rules, Pack(rules, ordered, i).bins, c, 0) == None
      && (!Fits(rules, [c]) || |Pack(rules, ordered, i).bins| >= MAX_BATCHES)
    decreases n
  {
    hide Fits, FirstFit;
    if n > 0 && c in Pack(rules, ordered, n - 1).rejected {
      i := RejectedAtItsTurn(rules, ordered, n - 1, c);
    } else {
      i := n - 1;
    }
  }

  lemma {:induction false} InsertBetween(before: seq<PackCandidate>, c: PackCandidate, after: seq<PackCandidate>)
    requires forall x :: x in before ==> !KeyLe(c, x)
    requires forall x :: x in after ==> KeyLe(c, x)
    ensures Insert(KeyLe, c, before + after) == before + [c] + after
    decreases |before|
  {
    if before == [] {
      assert before + after == after;
    } else {
      assert (before + after)[1..] == before[1..] + after;
      InsertBetween(before[1..], c, after);
      assert before == [before[0]] + before[1..];
    }
  }

  lemma PartFits(rules: Rules, before: seq<PackCandidate>, part: seq<PackCandidate>, after: seq<PackCandidate>)
    requires TokensStayWithin(rules) && part != []
    ensures Fits(rules, before + part + after) ==> Fits(rules, part)
  {
    var b, m, a := RequestsOf(before), RequestsOf(part), RequestsOf(after);
    assert RequestsOf(before + part + after) == b + m + a;
    if Renders(rules, b + m + a) {
      PartRenders(rules, b, m, a);
    }
  }

  lemma OrderSeparates(ordered: seq<PackCandidate>, i: nat, x: PackCandidate)
    requires SortedBy(KeyLe, ordered) && DistinctKeys(ordered) && i < |ordered|
    ensures x in ordered[..i] ==> !KeyLe(ordered[i], x)
    ensures x in ordered[i + 1..] ==> KeyLe(ordered[i], x)
  {
    if x in ordered[..i] {
      var k :| 0 <= k < i && ordered[k] == x;
      StringLeTotal(x.claim.key, ordered[i].claim.key);
    }
  }

  lemma DistinctKeysUnderPermutation(a: seq<PackCandidate>, b: seq<PackCandidate>)
    requires multiset(a) == multiset(b) && DistinctKeys(a)
    ensures DistinctKeys(b)
  {
    DistinctUnderPermutation(a, b);
    forall i, j | 0 <= i < j < |b| ensures b[i].claim.key != b[j].claim.key {
      assert b[i] in multiset(a) && b[j] in multiset(a);
      var k :| 0 <= k < |a| && a[k] == b[i];
      var l :| 0 <= l < |a| && a[l] == b[j];
    }
  }

  /** Against the bins of its turn and their later growth: a rejected candidate's place is taken. */
  lemma RefusalStands(rules: Rules, ordered: seq<PackCandidate>, i: nat, j: nat)
    requires TokensStayWithin(rules) && SortedBy(KeyLe, ordered) && DistinctKeys(ordered)
    requires i < |ordered| && i < MAX_CONSIDERED
    requires Pack(rules, ordered, i + 1).bins == Pack(rules, ordered, i).bins
    requires FirstFit(rules, Pack(rules, ordered, i).bins, ordered[i], 0) == None
    requires j < |Pack(rules, ordered, i).bins| && j < |Pack(rules, ordered, |ordered|).bins|
    ensures var bin := Pack(rules, ordered, |ordered|).bins[j];
            |bin| == MAX_CANDIDATES_PER_BATCH || !Fits(rules, Insert(KeyLe, ordered[i], bin))
  {
    hide Fits, FitsIn, Pack, FirstFit, KeyLe, DistinctKeys, Insert, TokensStayWithin;
    var n := |ordered|;
    var p, q := Pack(rules, ordered, i), Pack(rules, ordered, n);
    PackGrows(rules, ordered, i + 1, n);
    PackShape(rules, ordered, n);
    PackShape(rules, ordered, i);
    SortedPrefix(ordered, i);
    assert ordered[..n] == ordered && ordered[i + 1..n] == ordered[i + 1..];
    EarlierBinsRefuse(rules, p.bins, ordered[i], 0);
    var before, after := p.bins[j], q.bins[j][|p.bins[j]|..];
    assert q.bins[j] == before + after && BinOk(rules, q.bins[j]);
    CannotJoin(rules, ordered, i, before, after);
  }

  lemma SortedPrefix(ordered: seq<PackCandidate>, i: nat)
    requires SortedBy(KeyLe, ordered) && i <= |ordered|
    ensures SortedBy(KeyLe, ordered[..i])
  {}

  lemma CannotJoin(rules: Rules, ordered: seq<PackCandidate>, i: nat, before: seq<PackCandidate>, after: seq<PackCandidate>)
    requires TokensStayWithin(rules) && SortedBy(KeyLe, ordered) && DistinctKeys(ordered) && i < |ordered|
    requires Within(before, ordered[..i]) && Within(after, ordered[i + 1..])
    requires !FitsIn(rules, before, ordered[i]) && |before + after| <= MAX_CANDIDATES_PER_BATCH
    ensures |before + after| == MAX_CANDIDATES_PER_BATCH || !Fits(rules, Insert(KeyLe, ordered[i], before + after))
  {
    hide Insert, KeyLe, Fits, SortedBy, DistinctKeys, Within, TokensStayWithin;
    var c := ordered[i];
    SeparatedBy(ordered, i, before, after);
    InsertBetween(before, c, after);
    PartFits(rules, [], before + [c], after);
    assert [] + (before + [c]) + after == before + [c] + after;
  }

  lemma SeparatedBy(ordered: seq<PackCandidate>, i: nat, before: seq<PackCandidate>, after: seq<PackCandidate>)
    requires SortedBy(KeyLe, ordered) && DistinctKeys(ordered) && i < |ordered|
    requires Within(before, ordered[..i]) && Within(after, ordered[i + 1..])
    ensures forall x :: x in before ==> !KeyLe(ordered[i], x)
    ensures forall x :: x in after ==> KeyLe(ordered[i], x)
  {
    forall x | x in before ensures !KeyLe(ordered[i], x) { OrderSeparates(ordered, i, x); }
    forall x | x in after ensures KeyLe(ordered[i], x) { OrderSeparates(ordered, i, x); }
  }

  /** If dropping a candidate never makes a frame too large, then no considered candidate was left
      out needlessly: put into its place in any final batch, it does not fit. */
  lemma NoConsideredCandidateIsLeftOut(rules: Rules, candidates: seq<PackCandidate>, c: PackCandidate, j: nat)
    requires TokensStayWithin(rules) && DistinctKeys(candidates)
    requires c in PackSorted(rules, candidates).rejected && j < |PackSorted(rules, candidates).bins|
    requires var ordered := SortBy(KeyLe, candidates);
             c in ordered[..if |ordered| < MAX_CONSIDERED then |ordered| else MAX_CONSIDERED]
    ensures var bin := PackSorted(rules, candidates).bins[j];
            |bin| == MAX_CANDIDATES_PER_BATCH || !Fits(rules, Insert(KeyLe, c, bin))
  {
    var ordered := SortBy(KeyLe, candidates);
    KeyOrderIsTotal();
    SortByIsSorted(KeyLe, candidates);
    DistinctKeysUnderPermutation(candidates, ordered);
    var i := RejectedAtItsTurn(rules, ordered, |ordered|, c);
    var k :| 0 <= k < |ordered| && k < MAX_CONSIDERED && ordered[k] == c;
    assert i == k;
    var p := Pack(rules, ordered, i);
    var bin := PackSorted(rules, candidates).bins[j];
    if Fits(rules, [c]) {
      PackShape(rules, ordered, |ordered|);
      PackGrows(rules, ordered, i, |ordered|);
      RefusalStands(rules, ordered, i, j);
    } else {
      var at := InsertSplits(c, bin);
      PartFits(rules, bin[..at], [c], bin[at..]);
    }
  }

  lemma {:induction false} InsertSplits(c: PackCandidate, bin: seq<PackCandidate>) returns (at: nat)
    ensures at <= |bin| && Insert(KeyLe, c, bin) == bin[..at] + [c] + bin[at..]
    decreases |bin|
  {
    if bin == [] || KeyLe(c, bin[0]) {
      at := 0;
    } else {
      at := InsertSplits(c, bin[1..]);
      at := at + 1;
      assert bin == [bin[0]] + bin[1..];
    }
  }

  // ---- Where each candidate goes

  /** A bin of at most three that renders with the candidate behind it. */
  predicate Takes(rules: Rules, bin: seq<PackCandidate>, c: PackCandidate) {
    |bin| < 4 && Renders(rules, RequestsOf(bin + [c]))
  }

  /** Bin `j` goes on with `c` where it stood before. */
  predicate GoesTo(before: Packing, after: Packing, c: PackCandidate, j: nat) {
    && j < |after.bins|
    && var at := if j < |before.bins| then |before.bins[j]| else 0; at < |after.bins[j]| && after.bins[j][at] == c
  }

  lemma TakesIsFitsIn(rules: Rules, bin: seq<PackCandidate>, c: PackCandidate)
    ensures Takes(rules, bin, c) <==> FitsIn(rules, bin, c)
    ensures Takes(rules, [], c) <==> Fits(rules, [c])
  {
    assert [] + [c] == [c];
    RenderedSlots(rules, RequestsOf(bin + [c]));
    RenderedSlots(rules, RequestsOf([c]));
    hide Renders;
  }

  lemma RenderedSlots(rules: Rules, requests: seq<CandidateRequest>)
    ensures Measure(rules, requests).Ok? <==> Renders(rules, requests)
    ensures Renders(rules, requests) ==> Measure(rules, requests).value == SlotCount(requests) <= MAX_EVIDENCE_SLOTS
  {}

  lemma {:induction false} RejectedGrow(rules: Rules, ordered: seq<PackCandidate>, i: nat, n: nat)
    requires i <= n <= |ordered|
    ensures Pack(rules, ordered, i).rejected <= Pack(rules, ordered, n).rejected
    decreases n
  {
    hide Fits, FirstFit;
    if i < n {
      RejectedGrow(rules, ordered, i, n - 1);
    }
  }

  /** The partition is exactly first fit, whatever the sizes do: in key order, one of the first five
      candidates goes to the first bin that takes it as it stands, else opens one of at most two bins
      if it renders alone, and is otherwise left to people, as is every later one. */
  lemma PlacedFirstFit(rules: Rules, candidates: seq<PackCandidate>, i: nat) returns (before: Packing)
    requires i < |candidates|
    ensures var ordered, after := SortBy(KeyLe, candidates), PackSorted(rules, candidates);
            var c := ordered[i];
            && multiset(Flatten(before.bins)) + multiset(before.rejected) == multiset(ordered[..i])
            && Grown(before, after, ordered[i..]) && before.rejected <= after.rejected
            && if i < 5 && exists j :: 0 <= j < |before.bins| && Takes(rules, before.bins[j], c) then
                 exists j :: 0 <= j < |before.bins| && Takes(rules, before.bins[j], c) && GoesTo(before, after, c, j)
                             && forall l :: 0 <= l < j ==> !Takes(rules, before.bins[l], c)
               else if i < 5 && |before.bins| < 2 && Takes(rules, [], c) then GoesTo(before, after, c, |before.bins|)
               else before.rejected + [c] <= after.rejected
  {
    hide Pack, Fits, FitsIn, Takes, FirstFit, Flatten, SortBy, KeyLe;
    var ordered := SortBy(KeyLe, candidates);
    var n := |ordered|;
    var c := ordered[i];
    before := Pack(rules, ordered, i);
    PackPartitions(rules, ordered, i);
    assert ordered[i..n] == ordered[i..];
    PackGrows(rules, ordered, i, n);
    PackGrows(rules, ordered, i + 1, n);
    RejectedGrow(rules, ordered, i, n);
    RejectedGrow(rules, ordered, i + 1, n);
    PackOne(rules, ordered, i);
    forall j | 0 <= j < |before.bins| ensures Takes(rules, before.bins[j], c) <==> FitsIn(rules, before.bins[j], c) {
      TakesIsFitsIn(rules, before.bins[j], c);
    }
    TakesIsFitsIn(rules, [], c);
    EarlierBinsRefuse(rules, before.bins, c, 0);
    PlaceSteps(rules, before, c, i);
    var next := Pack(rules, ordered, i + 1);
    var b := FirstFit(rules, before.bins, c, 0);
    hide PlaceNext;
    if i < 5 && b.Some? {
      assert next.bins[b.value] == before.bins[b.value] + [c];
      assert GoesTo(before, Pack(rules, ordered, n), c, b.value);
    }
  }

  function Ids(cs: seq<PackCandidate>): (r: seq<int>)
    ensures |r| == |cs|
  {
    seq(|cs|, i requires 0 <= i < |cs| => cs[i].claim.reviewItem)
  }

  /** People get every stored item that was turned away, as often as it was, and nothing unstored. */
  lemma {:induction false} PeopleGetTheRejected(rejected: seq<PackCandidate>, id: int)
    ensures multiset(HumanOnly(rejected))[id] == if id > 0 then multiset(Ids(rejected))[id] else 0
  {
    if rejected != [] {
      var shorter := rejected[..|rejected| - 1];
      PeopleGetTheRejected(shorter, id);
      assert Ids(rejected) == Ids(shorter) + [rejected[|rejected| - 1].claim.reviewItem];
    }
  }
}
