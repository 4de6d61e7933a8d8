/** Token and cost accounting of one validation call, and its split among the call's children.

    A price is USD per million tokens with six decimals, held as an integer count of 10^-6 USD.
    A token count times such a price is a cost in units of 10^-6 micro-USD, so every amount is an
    exact integer; `PER_MICRO` of these units make one micro-USD. */
module CostAllocation {
  import opened Outcomes
  import opened Sorting
  import opened Sums

  const PER_MICRO := 1_000_000

  datatype Prices = Prices(input: nat, output: nat)

  /** What a call was reserved or charged: tokens in, tokens out, micro-USD. */
  datatype Charge = Charge(inTokens: nat, outTokens: nat, cost: nat)

  const ZERO_CHARGE := Charge(0, 0, 0)

  function ExactCost(inTokens: nat, outTokens: nat, p: Prices): nat {
    inTokens * p.input + outTokens * p.output
  }

  function Floor(exact: nat): nat {
    exact / PER_MICRO
  }

  function Fraction(exact: nat): nat {
    exact % PER_MICRO
  }

  function Ceiling(exact: nat): nat {
    (exact + PER_MICRO - 1) / PER_MICRO
  }

  function TokenCost(inTokens: int, outTokens: int, p: Prices): Result<nat> {
    if inTokens < 0 || outTokens < 0 then Err("validation usage is invalid")
    else Ok(Ceiling(ExactCost(inTokens, outTokens, p)))
  }

  /** The even token split: shares add up to the total and are non-increasing within one token. */
  function AllocateTokens(total: int, count: int): (r: Result<seq<nat>>)
    ensures r.Ok? <==> total >= 0 && count > 0
    ensures r.Ok? ==> |r.value| == count && Sum(r.value) == total
    ensures r.Ok? ==> forall i, j :: 0 <= i <= j < count ==> r.value[j] <= r.value[i] <= r.value[j] + 1
  {
    if total < 0 || count <= 0 then Err("validation allocation is invalid")
    else
      var base, remainder := total / count, total % count;
      var shares := seq(count, i => base + if i < remainder then 1 else 0);
      SumOfEvenShares(base, remainder, count);
      DivisionIdentity(total, count);
      Ok(shares)
  }

  lemma DivisionIdentity(total: nat, count: nat)
    requires count > 0
    ensures total / count >= 0 && 0 <= total % count < count
    ensures (total / count) * count + total % count == total
  {}

  lemma {:induction false} SumOfEvenShares(base: nat, remainder: nat, count: nat)
    ensures Sum(seq(count, i => base + if i < remainder then 1 else 0))
         == base * count + if remainder < count then remainder else count
  {
    if count > 0 {
      var s := seq(count, i => base + if i < remainder then 1 else 0);
      var t := seq(count - 1, i => base + if i < remainder then 1 else 0);
      SumOfEvenShares(base, remainder, count - 1);
      assert s == t + [s[count - 1]];
      SumAppend(t, [s[count - 1]]);
      assert base * count == base * (count - 1) + base;
    }
  }

  // ---- Largest-remainder split of the call cost

  /** One child's claim on the leftover micro-USD. */
  datatype Share = Share(index: nat, fraction: nat, key: string)

  predicate BumpedBefore(a: Share, b: Share) {
    a.fraction > b.fraction || (a.fraction == b.fraction && StringLe(a.key, b.key))
  }

  lemma BumpedBeforeIsPreorder()
    ensures TotalPreorder(BumpedBefore)
  {
    StringLeIsTotalOrder();
  }

  function ExactCosts(inputs: seq<nat>, outputs: seq<nat>, p: Prices): (r: seq<nat>)
    requires |inputs| == |outputs|
  {
    seq(|inputs|, i requires 0 <= i < |inputs| => ExactCost(inputs[i], outputs[i], p))
  }

  function Floors(exact: seq<nat>): seq<nat> {
    seq(|exact|, i requires 0 <= i < |exact| => Floor(exact[i]))
  }

  function BumpOrder(exact: seq<nat>, keys: seq<string>): (order: seq<Share>)
    requires |keys| >= |exact|
    ensures |order| == |exact|
  {
    SortBy(BumpedBefore, seq(|exact|, i requires 0 <= i < |exact| => Share(i, Fraction(exact[i]), keys[i])))
  }

  function FirstBumps(order: seq<Share>, k: nat): set<nat>
    requires k <= |order|
  {
    set i | 0 <= i < k :: order[i].index
  }

  function Bump(floors: seq<nat>, bumped: set<nat>): seq<nat> {
    seq(|floors|, i requires 0 <= i < |floors| => floors[i] + if i in bumped then 1 else 0)
  }

  function Min(a: nat, b: nat): nat { if a <= b then a else b }

  /** The split `_allocate_micro_usd` computes. */
  function AllocateMicroUsd(inputs: seq<nat>, outputs: seq<nat>, p: Prices, totalCost: nat, keys: seq<string>)
    : Result<seq<nat>>
  {
    if |inputs| != |outputs| || |keys| < |inputs| then Err("allocation lengths differ")
    else
      var exact := ExactCosts(inputs, outputs, p);
      var floors := Floors(exact);
      if totalCost < Sum(floors) then Err("validation cost allocation is invalid")
      else
        Ok(Bump(floors, FirstBumps(BumpOrder(exact, keys), Min(totalCost - Sum(floors), |floors|))))
  }

  /** The in-place form: floors first, then one micro-USD to each of the leading claims. */
  method AllocateMicroUsdInPlace(inputs: seq<nat>, outputs: seq<nat>, p: Prices, totalCost: nat, keys: seq<string>)
    returns (r: Result<seq<nat>>)
    ensures r == AllocateMicroUsd(inputs, outputs, p, totalCost, keys)
  {
    if |inputs| != |outputs| || |keys| < |inputs| {
      return Err("allocation lengths differ");
    }
    var exact := ExactCosts(inputs, outputs, p);
    var n := |exact|;
    var floors := new nat[n];
    var total: nat := 0;
    for i := 0 to n
      invariant forall k :: 0 <= k < i ==> floors[k] == Floor(exact[k])
      invariant total + Sum(Floors(exact[i..])) == Sum(Floors(exact))
    {
      floors[i] := Floor(exact[i]);
      total := total + floors[i];
      assert Floors(exact[i..])[1..] == Floors(exact[i + 1..]);
    }
    assert exact[0..] == exact;
    if totalCost < total {
      return Err("validation cost allocation is invalid");
    }
    var order := BumpOrder(exact, keys);
    BumpIndicesAreDistinct(exact, keys);
    var remaining := Min(totalCost - total, n);
    for k := 0 to remaining
      invariant floors[..] == Bump(Floors(exact), FirstBumps(order, k))
    {
      var index := order[k].index;
      assert index !in FirstBumps(order, k);
      assert FirstBumps(order, k + 1) == FirstBumps(order, k) + {index};
      floors[index] := floors[index] + 1;
    }
    return Ok(floors[..]);
  }

  lemma BumpIndicesAreDistinct(exact: seq<nat>, keys: seq<string>)
    requires |keys| >= |exact|
    ensures var order := BumpOrder(exact, keys);
            && (forall k :: 0 <= k < |order| ==> order[k].index < |exact| && order[k].fraction == Fraction(exact[order[k].index])
                                                 && order[k].key == keys[order[k].index])
            && (forall k, m :: 0 <= k < m < |order| ==> order[k].index != order[m].index)
  {
    var shares := seq(|exact|, i requires 0 <= i < |exact| => Share(i, Fraction(exact[i]), keys[i]));
    var order := BumpOrder(exact, keys);
    DistinctUnderPermutation(shares, order);
    forall k | 0 <= k < |order| ensures order[k] in shares {
      assert order[k] in multiset(order);
    }
  }

  // ---- What the split guarantees

  /** A split by largest remainder: each share is the floor of its exact cost or one more, as many
      shares are one more as there are leftover micro-USD, and no share left at its floor had a
      stronger claim than one that was raised. */
  ghost predicate IsLargestRemainderSplit(exact: seq<nat>, totalCost: nat, keys: seq<string>, shares: seq<nat>)
    requires |keys| >= |exact|
  {
    && |shares| == |exact|
    && (forall i :: 0 <= i < |exact| ==> Floor(exact[i]) <= shares[i] <= Floor(exact[i]) + 1)
    && (totalCost - Sum(Floors(exact)) <= |exact| ==> Sum(shares) == totalCost)
    && (forall i, j :: 0 <= i < |exact| && 0 <= j < |exact| && shares[i] > Floor(exact[i]) && shares[j] == Floor(exact[j])
          ==> BumpedBefore(Share(i, Fraction(exact[i]), keys[i]), Share(j, Fraction(exact[j]), keys[j])))
  }

  lemma {:induction false} SumOfBump(floors: seq<nat>, order: seq<Share>, k: nat)
    requires k <= |order|
    requires forall m :: 0 <= m < |order| ==> order[m].index < |floors|
    requires forall i, m :: 0 <= i < m < |order| ==> order[i].index != order[m].index
    ensures Sum(Bump(floors, FirstBumps(order, k))) == Sum(floors) + k
  {
    if k == 0 {
      assert Bump(floors, FirstBumps(order, 0)) == floors;
    } else {
      SumOfBump(floors, order, k - 1);
      var before := Bump(floors, FirstBumps(order, k - 1));
      var index := order[k - 1].index;
      assert index !in FirstBumps(order, k - 1);
      assert FirstBumps(order, k) == FirstBumps(order, k - 1) + {index};
      SumUpdate(before, index, before[index] + 1);
      assert Bump(floors, FirstBumps(order, k)) == before[index := before[index] + 1];
    }
  }

  lemma RaisedSharesLead(order: seq<Share>, k: nat, a: Share, b: Share)
    requires SortedBy(BumpedBefore, order) && k <= |order|
    requires forall x, y :: 0 <= x < y < |order| ==> order[x].index != order[y].index
    requires a in order && b in order && a.index in FirstBumps(order, k) && b.index !in FirstBumps(order, k)
    ensures BumpedBefore(a, b)
  {}

  lemma AllocationIsLargestRemainder(inputs: seq<nat>, outputs: seq<nat>, p: Prices, totalCost: nat, keys: seq<string>)
    requires AllocateMicroUsd(inputs, outputs, p, totalCost, keys).Ok?
    ensures IsLargestRemainderSplit(ExactCosts(inputs, outputs, p), totalCost, keys,
                                    AllocateMicroUsd(inputs, outputs, p, totalCost, keys).value)
  {
    var exact := ExactCosts(inputs, outputs, p);
    var floors := Floors(exact);
    var order := BumpOrder(exact, keys);
    var k := Min(totalCost - Sum(floors), |floors|);
    var shares := Bump(floors, FirstBumps(order, k));
    BumpIndicesAreDistinct(exact, keys);
    SumOfBump(floors, order, k);
    forall i, j | 0 <= i < |exact| && 0 <= j < |exact| && shares[i] > Floor(exact[i]) && shares[j] == Floor(exact[j])
      ensures BumpedBefore(Share(i, Fraction(exact[i]), keys[i]), Share(j, Fraction(exact[j]), keys[j]))
    {
      EveryShareIsRanked(exact, keys, i);
      EveryShareIsRanked(exact, keys, j);
      RaisedSharesLead(order, k, Share(i, Fraction(exact[i]), keys[i]), Share(j, Fraction(exact[j]), keys[j]));
    }
  }

  lemma EveryShareIsRanked(exact: seq<nat>, keys: seq<string>, i: nat)
    requires |keys| >= |exact| && i < |exact|
    ensures Share(i, Fraction(exact[i]), keys[i]) in BumpOrder(exact, keys)
    ensures SortedBy(BumpedBefore, BumpOrder(exact, keys))
  {
    var unsorted := seq(|exact|, i requires 0 <= i < |exact| => Share(i, Fraction(exact[i]), keys[i]));
    BumpedBeforeIsPreorder();
    SortByIsSorted(BumpedBefore, unsorted);
    assert unsorted[i] in multiset(BumpOrder(exact, keys));
  }

  /** With distinct tie-breakers there is only one such split, so nothing else is left to choose. */
  lemma LargestRemainderIsUnique(exact: seq<nat>, totalCost: nat, keys: seq<string>, a: seq<nat>, b: seq<nat>)
    requires |keys| == |exact| && Distinct(keys)
    requires Sum(Floors(exact)) <= totalCost <= Sum(Floors(exact)) + |exact|
    requires IsLargestRemainderSplit(exact, totalCost, keys, a) && IsLargestRemainderSplit(exact, totalCost, keys, b)
    ensures a == b
  {
    forall i | 0 <= i < |exact| ensures a[i] == b[i] {
      NoSplitDominates(exact, keys, totalCost, a, b, i);
      NoSplitDominates(exact, keys, totalCost, b, a, i);
    }
  }

  lemma NoSplitDominates(exact: seq<nat>, keys: seq<string>, totalCost: nat, a: seq<nat>, b: seq<nat>, i: nat)
    requires |keys| == |exact| && Distinct(keys)
    requires Sum(Floors(exact)) <= totalCost <= Sum(Floors(exact)) + |exact|
    requires IsLargestRemainderSplit(exact, totalCost, keys, a) && IsLargestRemainderSplit(exact, totalCost, keys, b)
    requires i < |exact|
    ensures a[i] <= b[i]
  {
    if a[i] > b[i] {
      if j :| 0 <= j < |a| && b[j] > a[j] {
        StringLeTotal(keys[i], keys[j]);
      } else {
        SumStrictlyMonotone(b, a, i);
      }
    }
  }

  lemma {:induction false} SumStrictlyMonotone(a: seq<nat>, b: seq<nat>, i: nat)
    requires |a| == |b| && i < |a| && a[i] < b[i]
    requires forall j :: 0 <= j < |a| ==> a[j] <= b[j]
    ensures Sum(a) < Sum(b)
  {
    if i == 0 {
      SumMonotone(a[1..], b[1..]);
    } else {
      SumStrictlyMonotone(a[1..], b[1..], i - 1);
    }
  }

  lemma {:induction false} SumMonotone(a: seq<nat>, b: seq<nat>)
    requires |a| == |b|
    requires forall j :: 0 <= j < |a| ==> a[j] <= b[j]
    ensures Sum(a) <= Sum(b)
  {
    if a != [] {
      SumMonotone(a[1..], b[1..]);
    }
  }

  // ---- The exact split theorem

  lemma {:induction false} ExactCostsAddUp(inputs: seq<nat>, outputs: seq<nat>, p: Prices)
    requires |inputs| == |outputs|
    ensures Sum(ExactCosts(inputs, outputs, p)) == ExactCost(Sum(inputs), Sum(outputs), p)
  {
    if inputs != [] {
      ExactCostsAddUp(inputs[1..], outputs[1..], p);
      assert ExactCosts(inputs, outputs, p)[1..] == ExactCosts(inputs[1..], outputs[1..], p);
      Distribute(inputs[0], Sum(inputs[1..]), p.input);
      Distribute(outputs[0], Sum(outputs[1..]), p.output);
    }
  }

  lemma Distribute(a: nat, b: nat, c: nat)
    ensures (a + b) * c == a * c + b * c
  {}

  function NonZeroFractions(exact: seq<nat>): nat {
    if exact == [] then 0
    else (if Fraction(exact[0]) == 0 then 0 else 1) + NonZeroFractions(exact[1..])
  }

  /** Between the floors and the exact total there is less than one micro-USD per non-zero fraction. */
  lemma {:induction false} LeftoverIsCovered(exact: seq<nat>)
    ensures Sum(Floors(exact)) * PER_MICRO <= Sum(exact)
    ensures Sum(exact) <= Sum(Floors(exact)) * PER_MICRO + NonZeroFractions(exact) * (PER_MICRO - 1)
  {
    if exact != [] {
      LeftoverIsCovered(exact[1..]);
      assert Floors(exact)[1..] == Floors(exact[1..]);
      assert exact[0] == Floor(exact[0]) * PER_MICRO + Fraction(exact[0]);
    }
  }

  lemma CeilingLeftover(total: nat, floors: nat, nonZero: nat)
    requires floors * PER_MICRO <= total <= floors * PER_MICRO + nonZero * (PER_MICRO - 1)
    ensures floors <= Ceiling(total) <= floors + nonZero
  {}

  lemma {:induction false} NonZeroBounded(exact: seq<nat>)
    ensures NonZeroFractions(exact) <= |exact|
  {
    if exact != [] {
      NonZeroBounded(exact[1..]);
    }
  }

  /** For every token total, batch size and price pair: the even token split followed by the
      largest-remainder split never refuses; the shares add up to the ceiling-rounded call cost;
      every share is the floor or the ceiling of its own exact cost (so a share without a fraction
      is never raised); and the leftover lies between zero and the number of non-zero fractions. */
  lemma ExactCostSplit(inTokens: nat, outTokens: nat, count: nat, p: Prices, keys: seq<string>)
    requires count > 0 && |keys| == count
    ensures var inputs := AllocateTokens(inTokens, count).value;
            var outputs := AllocateTokens(outTokens, count).value;
            var cost := TokenCost(inTokens, outTokens, p).value;
            var exact := ExactCosts(inputs, outputs, p);
            var split := AllocateMicroUsd(inputs, outputs, p, cost, keys);
            && split.Ok? && |split.value| == count && Sum(split.value) == cost
            && 0 <= cost - Sum(Floors(exact)) <= NonZeroFractions(exact)
            && (forall i :: 0 <= i < count ==> Floor(exact[i]) <= split.value[i] <= Ceiling(exact[i]))
  {
    var inputs := AllocateTokens(inTokens, count).value;
    var outputs := AllocateTokens(outTokens, count).value;
    var exact := ExactCosts(inputs, outputs, p);
    var cost := TokenCost(inTokens, outTokens, p).value;
    ExactCostsAddUp(inputs, outputs, p);
    LeftoverIsCovered(exact);
    CeilingLeftover(Sum(exact), Sum(Floors(exact)), NonZeroFractions(exact));
    NonZeroBounded(exact);
    AllocationIsLargestRemainder(inputs, outputs, p, cost, keys);
    var shares := AllocateMicroUsd(inputs, outputs, p, cost, keys).value;
    forall i | 0 <= i < count ensures shares[i] <= Ceiling(exact[i]) {
      ZeroFractionsAreNeverRaised(exact, cost, keys, shares, i);
    }
  }

  /** A raised share without a fraction would outrank every share left at its floor, so all
      fractions would be raised and the total would exceed the leftover. */
  lemma ZeroFractionsAreNeverRaised(exact: seq<nat>, cost: nat, keys: seq<string>, shares: seq<nat>, i: nat)
    requires |keys| == |exact| && IsLargestRemainderSplit(exact, cost, keys, shares)
    requires 0 <= cost - Sum(Floors(exact)) <= NonZeroFractions(exact) <= |exact|
    requires i < |exact|
    ensures Fraction(exact[i]) == 0 ==> shares[i] == Floor(exact[i])
  {
    if Fraction(exact[i]) == 0 && shares[i] > Floor(exact[i]) {
      assert forall j :: 0 <= j < |exact| && Fraction(exact[j]) != 0 ==> shares[j] == Floor(exact[j]) + 1;
      RaisedCount(exact, shares, i);
    }
  }

  lemma {:induction false} RaisedCount(exact: seq<nat>, shares: seq<nat>, i: int)
    requires |shares| == |exact|
    requires forall j :: 0 <= j < |exact| ==> Floor(exact[j]) <= shares[j]
    requires forall j :: 0 <= j < |exact| && Fraction(exact[j]) != 0 ==> shares[j] == Floor(exact[j]) + 1
    ensures Sum(shares) >= Sum(Floors(exact)) + NonZeroFractions(exact)
    ensures 0 <= i < |exact| && Fraction(exact[i]) == 0 && shares[i] > Floor(exact[i])
            ==> Sum(shares) > Sum(Floors(exact)) + NonZeroFractions(exact)
  {
    if exact != [] {
      RaisedCount(exact[1..], shares[1..], i - 1);
      assert Floors(exact)[1..] == Floors(exact[1..]);
    }
  }
}
