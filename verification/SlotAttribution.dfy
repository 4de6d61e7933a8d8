/** Which review item a provider result ends up on: from rendered slot through policy decision and
    settlement to replay. */
module SlotAttribution {
  import opened Outcomes
  import opened Sorting
  import opened CostAllocation
  import opened AutoReviewPolicy
  import opened ValidationFrame
  import opened ValidationProtocol
  import opened ValidationSystem
  import opened ProtocolSafety
  import Packing = FirstFitPacking

  // ---- The integrity check on a parsed provider reply

  predicate HonestAt(f: Frame, r: CandidateResult, k: nat)
    requires k < |f.candidateSlots| && k < |f.fields| && k < |f.evidenceOf|
  {
    && r.slot == f.candidateSlots[k]
    && seq(|r.claims|, i requires 0 <= i < |r.claims| => r.claims[i].field) == f.fields[k]
    && forall i :: 0 <= i < |r.claims| ==> CitesOnly(r.claims[i], f.evidenceOf[k])
  }

  predicate Honest(f: Frame, results: seq<CandidateResult>)
    requires |f.candidateSlots| == |f.fields| == |f.evidenceOf|
  {
    |results| == |f.candidateSlots| && forall k :: 0 <= k < |results| ==> HonestAt(f, results[k], k)
  }

  method CheckIntegrity(f: Frame, results: seq<CandidateResult>) returns (ok: bool)
    requires |f.candidateSlots| == |f.fields| == |f.evidenceOf|
    ensures ok <==> Honest(f, results)
  {
    var slots := seq(|results|, i requires 0 <= i < |results| => results[i].slot);
    if slots != f.candidateSlots {
      assert |results| == |f.candidateSlots| ==> exists k :: 0 <= k < |results| && slots[k] != f.candidateSlots[k];
      return false;
    }
    for k := 0 to |results|
      invariant forall j :: 0 <= j < k ==> HonestAt(f, results[j], j)
    {
      var r := results[k];
      assert slots[k] == r.slot;
      if seq(|r.claims|, i requires 0 <= i < |r.claims| => r.claims[i].field) != f.fields[k] {
        assert !HonestAt(f, r, k);
        return false;
      }
      for i := 0 to |r.claims|
        invariant forall j :: 0 <= j < i ==> CitesOnly(r.claims[j], f.evidenceOf[k])
      {
        if !CitesOnly(r.claims[i], f.evidenceOf[k]) {
          assert !HonestAt(f, r, k);
          return false;
        }
      }
      assert HonestAt(f, r, k);
    }
    return true;
  }

  // ---- One execution of a prepared batch

  /** What the provider attempt yields: a refusal, or reported usages and the checked results. */
  datatype Reply = Unavailable | Reply(usages: seq<(int, int)>, results: seq<CandidateResult>)

  datatype Step = ClaimBatch | StartAttempt(context: Context) | InvokeProvider(context: Context)
    | SettleFailed(failure: Failure) | SettleCompleted(completion: Completion)

  function Judged(b: Packing.Batch, results: seq<CandidateResult>): seq<PolicyInput>
    requires |results| == |b.inputs|
  {
    seq(|results|, i requires 0 <= i < |results| => b.inputs[i].(result := Some(results[i])))
  }

  function CompletionOf(b: Packing.Batch, ctx: Context, usage: (int, int), results: seq<CandidateResult>): Completion
    requires |results| == |b.inputs| == |b.claims|
  {
    var decisions := EvaluateBatch(Judged(b, results));
    var claims := SortBy(CandidateLe, b.claims);
    Completion(ctx, seq(|results|, i requires 0 <= i < |results| =>
      CandidateCompletion(claims[i], results[i], decisions[i].decision, decisions[i].reasons)), usage.0, usage.1)
  }

  function Settlement(b: Packing.Batch, ctx: Context, reply: Reply): Step
    requires |b.inputs| == |b.claims|
  {
    match reply
    case Unavailable => SettleFailed(Failure(ctx, ReasonCode.ValidatorUnavailable, None))
    case Reply(usages, results) =>
      if |usages| != 1 || |results| != |b.inputs|
      then SettleFailed(Failure(ctx, ReasonCode.ValidatorMalformed, if |usages| == 1 then Some(usages[0]) else None))
      else SettleCompleted(CompletionOf(b, ctx, usages[0], results))
  }

  /** The orchestrator's steps, given the answers it gets. `claimKey` and `admissionKey` are the keys
      the batch was prepared with; a granted claim that does not match its admission is refused before
      the attempt starts, and an error of the store ends the run. */
  method Execute(b: Packing.Batch, claimKey: CallKey, admissionKey: CallKey, claim: Result<ClaimOutcome>, startOk: bool, reply: Reply)
    returns (steps: seq<Step>, r: Result<()>)
    requires |b.inputs| == |b.claims|
    ensures InvokesOnlyUnderGrant(steps, claimKey, claim, startOk)
    ensures forall i :: 0 <= i < |steps| && steps[i].InvokeProvider? ==>
      |steps| == i + 2 && steps[i + 1] == Settlement(b, steps[i].context, reply)
    ensures (exists i :: 0 <= i < |steps| && steps[i].InvokeProvider?)
            <==> claim.Ok? && claim.value.kind.ClaimGranted? && admissionKey == claimKey && startOk
    ensures r.Err? <==> claim.Err? || (claim.value.kind.ClaimGranted? && (admissionKey != claimKey || !startOk))
  {
    steps := [ClaimBatch];
    if claim.Err? {
      return steps, Err(claim.reason);
    }
    match claim.value.kind {
      case Busy(_) => return steps, Ok(());
      case ReplayedCompleted(_) => return steps, Ok(());
      case ReplayedFailed(_) => return steps, Ok(());
      case ClaimGranted(token, _) =>
        if admissionKey != claimKey {
          return steps, Err("validation admission does not match the canonical claim");
        }
        var context := Context(claim.value.callId, claimKey, token);
        steps := steps + [StartAttempt(context)];
        if !startOk {
          return steps, Err("validation attempt is not claimable");
        }
        steps := steps + [InvokeProvider(context)];
        assert steps[2].InvokeProvider?;
        steps := steps + [Settlement(b, context, reply)];
        assert steps[2].InvokeProvider?;
        return steps, Ok(());
    }
  }

  /** Claim first, then a started attempt, then one invocation; settlements only after it, all under
      the claimed lease. */
  predicate InvokesOnlyUnderGrant(steps: seq<Step>, key: CallKey, claim: Result<ClaimOutcome>, startOk: bool) {
    && |steps| >= 1 && steps[0] == ClaimBatch
    && (|steps| >= 2 ==> claim.Ok? && claim.value.kind.ClaimGranted?)
    && (|steps| >= 2 ==> steps[1] == StartAttempt(Context(claim.value.callId, key, claim.value.kind.token)))
    && (|steps| >= 3 ==> startOk && |steps| == 4 && steps[2] == InvokeProvider(steps[1].context))
  }

  // ---- Attribution

  /** The batch of one packed bin, whose policy expects the bin's own claim fields. */
  ghost predicate FromBin(bin: seq<Packing.PackCandidate>, b: Packing.Batch) {
    && bin != [] && Packing.Prepared(bin, b)
    && SortedBy(Packing.KeyLe, bin) && Packing.DistinctKeys(bin)
    && forall k :: 0 <= k < |bin| ==> bin[k].policy.expectedFields == FieldsOf(bin[k].request)
  }

  lemma {:induction false} BinWithinFlatten(bins: seq<seq<Packing.PackCandidate>>, i: nat)
    requires i < |bins|
    ensures multiset(bins[i]) <= multiset(Packing.Flatten(bins))
    decreases |bins|
  {
    if i < |bins| - 1 {
      BinWithinFlatten(bins[..|bins| - 1], i);
    }
  }

  lemma TwoPlacesCountTwice<T>(s: seq<T>, i: nat, j: nat)
    requires i < j < |s| && s[i] == s[j]
    ensures multiset(s)[s[i]] >= 2
  {
    assert s == s[..j] + [s[j]] + s[j + 1..];
    assert s[i] in multiset(s[..j]) by { assert s[..j][i] == s[i]; }
  }

  lemma DistinctKeysInPart(part: seq<Packing.PackCandidate>, whole: seq<Packing.PackCandidate>)
    requires multiset(part) <= multiset(whole) && Packing.DistinctKeys(whole)
    ensures Packing.DistinctKeys(part)
  {
    forall i, j | 0 <= i < j < |part| ensures part[i].claim.key != part[j].claim.key {
      assert part[i] in multiset(part) && part[j] in multiset(part);
      var k :| 0 <= k < |whole| && whole[k] == part[i];
      var l :| 0 <= l < |whole| && whole[l] == part[j];
      if part[i] == part[j] {
        TwoPlacesCountTwice(part, i, j);
        DistinctCountsOnce(whole, part[i]);
      }
    }
  }

  /** The batches that packing prepares are batches the attribution theorem speaks about, as soon as
      keys are distinct and each candidate's policy expects the candidate's own fields. */
  lemma PackedBatchesAreAttributable(rules: Rules, candidates: seq<Packing.PackCandidate>, i: nat, b: Packing.Batch)
    requires Packing.DistinctKeys(candidates)
    requires forall c :: c in candidates ==> c.policy.expectedFields == FieldsOf(c.request)
    requires i < |Packing.PackSorted(rules, candidates).bins| && Packing.Prepared(Packing.PackSorted(rules, candidates).bins[i], b)
    ensures FromBin(Packing.PackSorted(rules, candidates).bins[i], b)
  {
    hide Packing.PackSorted, Packing.Prepared, Packing.Flatten;
    var p := Packing.PackSorted(rules, candidates);
    Packing.PackingIsAPartition(rules, candidates);
    BinWithinFlatten(p.bins, i);
    DistinctKeysInPart(p.bins[i], candidates);
    forall k | 0 <= k < |p.bins[i]| ensures p.bins[i][k].policy.expectedFields == FieldsOf(p.bins[i][k].request) {
      assert p.bins[i][k] in multiset(p.bins[i]);
      assert p.bins[i][k] in multiset(candidates);
    }
  }

  lemma CandidateOrderIsTotal()
    ensures TotalPreorder(CandidateLe) && TotalPreorder(CompletionLe)
  {
    forall a, b ensures CandidateLe(a, b) || CandidateLe(b, a) {
      StringLeTotal(a.key, b.key);
    }
    forall a, b, c | CandidateLe(a, b) && CandidateLe(b, c) ensures CandidateLe(a, c) {
      StringLeTransitive(a.key, b.key, c.key);
    }
    forall a, b, c | CompletionLe(a, b) && CompletionLe(b, c) ensures CompletionLe(a, c) {
      StringLeTransitive(a.candidate.key, b.candidate.key, c.candidate.key);
    }
  }

  /** Slot order is key order: sorting the claims of a bin leaves them where they were rendered. */
  lemma BinOrderIsKeyOrder(bin: seq<Packing.PackCandidate>, b: Packing.Batch)
    requires FromBin(bin, b)
    ensures SortBy(CandidateLe, b.claims) == b.claims
  {
    CandidateOrderIsTotal();
    forall i, j | 0 <= i < j < |bin| ensures CandidateLe(b.claims[i], b.claims[j]) && b.claims[i].key != b.claims[j].key {
      assert Packing.PreparedAt(bin, b, i) && Packing.PreparedAt(bin, b, j);
      assert Packing.KeyLe(bin[i], bin[j]);
    }
    forall i, j | 0 <= i < |bin| && 0 <= j < |bin| && CandidateLe(b.claims[i], b.claims[j]) && CandidateLe(b.claims[j], b.claims[i])
      ensures b.claims[i] == b.claims[j]
    {
      StringLeTotal(b.claims[i].key, b.claims[j].key);
    }
    SortOfSorted(CandidateLe, b.claims);
  }

  /** Results that pass the integrity check are never malformed for the policy. */
  lemma HonestResultsAreWellFormed(bin: seq<Packing.PackCandidate>, b: Packing.Batch, results: seq<CandidateResult>, k: nat)
    requires FromBin(bin, b) && Honest(b.frame, results) && k < |results|
    ensures |results| == |bin| && WellFormedFor(Judged(b, results)[k], results[k])
  {
    assert Packing.PreparedAt(bin, b, k);
    assert Numbered(Packing.RequestsOf(bin), b.frame.fields, b.frame.evidenceOf, k);
    assert HonestAt(b.frame, results[k], k);
    assert b.frame.candidateSlots[k] == k + 1;
    assert |results[k].claims| == |b.frame.fields[k]| == 2;
  }

  /** What a settled batch says of its candidate `k`. */
  ghost predicate Attributed(bin: seq<Packing.PackCandidate>, b: Packing.Batch, results: seq<CandidateResult>, p: seq<Projection>, k: nat)
    requires |p| == |results| == |bin| == |b.inputs| && k < |bin|
  {
    && p[k].reviewItem == bin[k].claim.reviewItem
    && p[k].result == results[k]
    && p[k].decision == EvaluateBatch(Judged(b, results))[k].decision
    && p[k].reasons == EvaluateBatch(Judged(b, results))[k].reasons
    && CitesOwnTexts(bin, results, k)
    && !p[k].cacheHit
  }

  /** Every cited slot is a slot of the candidate's own evidence texts. */
  ghost predicate CitesOwnTexts(bin: seq<Packing.PackCandidate>, results: seq<CandidateResult>, k: nat)
    requires k < |results| && k < |bin|
  {
    var first := SlotsBefore(Packing.RequestsOf(bin), k);
    forall c, slot :: c in results[k].claims && slot in c.evidence ==> first < slot <= first + |bin[k].request.evidence|
  }

  lemma HonestResultsCiteOwnTexts(bin: seq<Packing.PackCandidate>, b: Packing.Batch, results: seq<CandidateResult>, k: nat)
    requires FromBin(bin, b) && Honest(b.frame, results) && k < |results|
    ensures |results| == |bin| && CitesOwnTexts(bin, results, k)
  {
    assert HonestAt(b.frame, results[k], k);
    assert Numbered(Packing.RequestsOf(bin), b.frame.fields, b.frame.evidenceOf, k);
  }

  lemma CompletionIsInOrder(bin: seq<Packing.PackCandidate>, b: Packing.Batch, ctx: Context, usage: (int, int), results: seq<CandidateResult>)
    requires FromBin(bin, b) && |results| == |bin|
    ensures var done := CompletionOf(b, ctx, usage, results);
            SortBy(CompletionLe, done.candidates) == done.candidates && CandidatesOf(done.candidates) == b.claims
  {
    BinOrderIsKeyOrder(bin, b);
    CandidateOrderIsTotal();
    var cs := CompletionOf(b, ctx, usage, results).candidates;
    assert CandidatesOf(cs) == b.claims;
    forall i, j | 0 <= i < j < |cs| ensures CompletionLe(cs[i], cs[j]) && cs[i].candidate.key != cs[j].candidate.key {
      assert Packing.PreparedAt(bin, b, i) && Packing.PreparedAt(bin, b, j);
      assert Packing.KeyLe(bin[i], bin[j]);
    }
    forall i, j | 0 <= i < |cs| && 0 <= j < |cs| && CompletionLe(cs[i], cs[j]) && CompletionLe(cs[j], cs[i]) ensures cs[i] == cs[j] {
      StringLeTotal(cs[i].candidate.key, cs[j].candidate.key);
    }
    SortOfSorted(CompletionLe, cs);
  }

  /** A completed row holds, child by child, what its projections said. */
  ghost predicate Projected(c: Call, p: seq<Projection>) {
    && c.status == Completed && c.children != [] && AllDecided(c.children)
    && p == Projections(c.id, c.children, false)
  }

  lemma ChargedCompletionProjects(d: Durable, v: Volatile, ctx: Context, c: Call, ordered: seq<CandidateCompletion>,
                                  charge: Charge, charges: seq<Charge>, env: Env)
    requires d.safety.Some? && ctx.key.workflow in d.workflows && |ordered| == |c.children| == |charges|
    requires var r := CompleteCharged(d, v, ctx, c, ordered, charge, charges, env).2; r.Ok? && r.value != []
    ensures var (d', _, r) := CompleteCharged(d, v, ctx, c, ordered, charge, charges, env);
            var children := CompletedChildren(c.children, ordered, charges);
            && AllDecided(children) && r.value == Projections(c.id, children, false)
            && ctx.key in d'.calls && d'.calls[ctx.key].id == c.id && d'.calls[ctx.key].status == Completed
            && d'.calls[ctx.key].children == children
  {}

  lemma CompletionProjects(d: Durable, v: Volatile, ctx: Context, done: Completion, env: Env)
    requires var r := CompleteTx(d, v, ctx, done, env).2; r.Ok? && r.value != []
    ensures var (d', _, r) := CompleteTx(d, v, ctx, done, env);
            && ctx.key in d'.calls && Projected(d'.calls[ctx.key], r.value)
            && |r.value| == |done.candidates|
            && forall k :: 0 <= k < |r.value| ==> ProjectsCandidate(r.value[k], SortBy(CompletionLe, done.candidates)[k], k)
  {
    hide TokenCost, ChildCharges, CompleteCharged;
    var c := CallOf(d, ctx).value;
    var p := PriceCompletion(c, done, env.now).value;
    ChargedCompletionProjects(d, v, ctx, c, p.ordered, p.charge, p.charges, env);
    ChildrenFollowCompletions(c.children, p.ordered);
  }

  lemma ChildrenFollowCompletions(children: seq<Child>, ordered: seq<CandidateCompletion>)
    requires CandidatesOf(ordered) == ChildCandidates(children)
    ensures |children| == |ordered| && forall k :: 0 <= k < |children| ==> children[k].candidate == ordered[k].candidate
  {
    assert |CandidatesOf(ordered)| == |ordered| && |ChildCandidates(children)| == |children|;
    forall k | 0 <= k < |children| ensures children[k].candidate == ordered[k].candidate {
      assert CandidatesOf(ordered)[k] == ChildCandidates(children)[k];
    }
  }

  predicate ProjectsCandidate(p: Projection, done: CandidateCompletion, k: nat) {
    && p.reviewItem == done.candidate.reviewItem && p.decision == done.decision && p.reasons == done.reasons
    && p.result == done.result.(slot := k + 1) && !p.cacheHit
  }

  /** Whatever the store reports as completed for a batch, it reports about the candidate that was
      rendered into that slot. */
  lemma ResultsLandOnTheirItems(bin: seq<Packing.PackCandidate>, b: Packing.Batch, d: Durable, v: Volatile, ctx: Context,
                                usage: (int, int), results: seq<CandidateResult>, env: Env)
    requires FromBin(bin, b) && Honest(b.frame, results)
    requires |results| == |b.inputs| == |b.claims|
    requires var r := CompleteTx(d, v, ctx, CompletionOf(b, ctx, usage, results), env).2; r.Ok? && r.value != []
    ensures var p := CompleteTx(d, v, ctx, CompletionOf(b, ctx, usage, results), env).2.value;
            |p| == |bin| && forall k :: 0 <= k < |bin| ==> Attributed(bin, b, results, p, k)
  {
    var done := CompletionOf(b, ctx, usage, results);
    CompletionIsInOrder(bin, b, ctx, usage, results);
    CompletionProjects(d, v, ctx, done, env);
    var p := CompleteTx(d, v, ctx, done, env).2.value;
    hide CompleteTx, EvaluateBatch, SortBy;
    forall k | 0 <= k < |bin| ensures Attributed(bin, b, results, p, k) {
      assert ProjectsCandidate(p[k], done.candidates[k], k);
      assert CandidatesOf(done.candidates)[k] == b.claims[k];
      assert Packing.PreparedAt(bin, b, k);
      HonestResultsCiteOwnTexts(bin, b, results, k);
      assert HonestAt(b.frame, results[k], k) && b.frame.candidateSlots[k] == k + 1;
    }
  }

  /** The policy's question about candidate `k`: its own slot, evidence, and result. */
  function Question(bin: seq<Packing.PackCandidate>, results: seq<CandidateResult>, k: nat): PolicyInput
    requires k < |bin| && k < |results|
  {
    bin[k].policy.(expectedSlot := k + 1,
                   expectedEvidence := Range(SlotsBefore(Packing.RequestsOf(bin), k) + 1, |bin[k].request.evidence|),
                   result := Some(results[k]))
  }

  lemma JudgedAreTheQuestions(bin: seq<Packing.PackCandidate>, b: Packing.Batch, results: seq<CandidateResult>)
    requires FromBin(bin, b) && |results| == |b.inputs|
    ensures |results| == |bin| && Judged(b, results) == seq(|bin|, k requires 0 <= k < |bin| => Question(bin, results, k))
  {
    forall k | 0 <= k < |bin| ensures Judged(b, results)[k] == Question(bin, results, k) {
      assert Packing.PreparedAt(bin, b, k);
      assert Numbered(Packing.RequestsOf(bin), b.frame.fields, b.frame.evidenceOf, k);
    }
  }

  /** From the reply to the stored decision: an item is stored as approved exactly if it was eligible
      and its own result certifies it, in a batch of at most four that nobody spoils; and in such a
      batch every stored decision and reason is the one the policy's table gives for the item. */
  lemma StoredDecisionsAreTheItemsOwn(bin: seq<Packing.PackCandidate>, b: Packing.Batch, d: Durable, v: Volatile, ctx: Context,
                                      usage: (int, int), results: seq<CandidateResult>, env: Env, k: nat)
    requires FromBin(bin, b) && Honest(b.frame, results)
    requires |results| == |b.inputs| == |b.claims| && k < |bin| && k < |results|
    requires var r := CompleteTx(d, v, ctx, CompletionOf(b, ctx, usage, results), env).2; r.Ok? && r.value != []
    ensures var p := CompleteTx(d, v, ctx, CompletionOf(b, ctx, usage, results), env).2.value;
            var sound := |bin| <= 4 && forall i :: 0 <= i < |bin| && i < |results| ==> !Spoils(Question(bin, results, i));
            && |p| == |bin|
            && (p[k].decision == AutoApprove <==>
                sound && Certified(Question(bin, results, k)) && bin[k].policy.eligibility.decision == Eligible)
            && (sound ==> JudgedByTable(Question(bin, results, k), PolicyResult(p[k].decision, p[k].reasons)))
  {
    hide CompleteTx, CompletionOf, EvaluateBatch, Certified, Spoils, JudgedByTable, FromBin, Honest;
    ResultsLandOnTheirItems(bin, b, d, v, ctx, usage, results, env);
    JudgedAreTheQuestions(bin, b, results);
    var values := Judged(b, results);
    AutomaticDecisionIffCertified(values, k);
    var p := CompleteTx(d, v, ctx, CompletionOf(b, ctx, usage, results), env).2.value;
    assert Attributed(bin, b, results, p, k);
    forall i | 0 <= i < |bin| ensures values[i] == Question(bin, results, i) && values[i].expectedSlot == i + 1 {}
    assert WellNumbered(values) <==> |bin| <= 4;
    assert values[k].eligibility == bin[k].policy.eligibility;
    assert PolicyResult(p[k].decision, p[k].reasons) == EvaluateBatch(values)[k];
    hide Attributed, Judged, Question;
    if |bin| <= 4 && forall i :: 0 <= i < |bin| && i < |results| ==> !Spoils(Question(bin, results, i)) {
      UnspoiledBatchIsJudgedByTable(values, k);
    }
  }

  /** What is reported of an attempt: no usage if the validator was unavailable, the one usage there is
      if the reply has the wrong size, and otherwise the decided results of the claimed candidates. */
  lemma SettlementReports(b: Packing.Batch, ctx: Context, reply: Reply)
    requires |b.inputs| == |b.claims|
    ensures reply.Unavailable? ==> Settlement(b, ctx, reply) == SettleFailed(Failure(ctx, ReasonCode.ValidatorUnavailable, None))
    ensures reply.Reply? && |reply.usages| == 1 && |reply.results| != |b.inputs| ==>
              Settlement(b, ctx, reply) == SettleFailed(Failure(ctx, ReasonCode.ValidatorMalformed, Some(reply.usages[0])))
    ensures reply.Reply? && |reply.usages| != 1 ==>
              Settlement(b, ctx, reply) == SettleFailed(Failure(ctx, ReasonCode.ValidatorMalformed, None))
    ensures reply.Reply? && |reply.usages| == 1 && |reply.results| == |b.inputs| ==>
              var s := Settlement(b, ctx, reply);
              && s.SettleCompleted? && s.completion.context == ctx
              && (s.completion.inTokens, s.completion.outTokens) == reply.usages[0]
              && multiset(CandidatesOf(s.completion.candidates)) == multiset(b.claims)
              && |s.completion.candidates| == |reply.results|
              && forall i :: 0 <= i < |reply.results| ==> s.completion.candidates[i].result == reply.results[i]
  {
    if reply.Reply? && |reply.usages| == 1 && |reply.results| == |b.inputs| {
      var done := CompletionOf(b, ctx, reply.usages[0], reply.results);
      assert CandidatesOf(done.candidates) == SortBy(CandidateLe, b.claims);
    }
    hide EvaluateBatch, SortBy;
  }

  // ---- Replay

  /** After any further run, a claim of the same batch that is answered at all is answered with the
      same projections, marked as replayed. */
  lemma ReplayReturnsTheSame(before: seq<Op>, after: seq<Op>, process: nat, ctx: Context, done: Completion, env: Env, r: Request, later: Env)
    requires var s := Reached(before);
             var p := CompleteTx(s.d, VolatileOf(s, process), ctx, done, env).2;
             p.Ok? && p.value != []
    requires r.key == ctx.key
    requires ClaimTx(Reached(before + [Complete(process, ctx, done, env)] + after).d, r, later).1.Ok?
    ensures var s := Reached(before);
            var p := CompleteTx(s.d, VolatileOf(s, process), ctx, done, env).2.value;
            var claim := ClaimTx(Reached(before + [Complete(process, ctx, done, env)] + after).d, r, later).1.value;
            && claim.kind.ReplayedCompleted?
            && |claim.kind.projections| == |p|
            && forall k :: 0 <= k < |p| ==> claim.kind.projections[k] == p[k].(cacheHit := true)
  {
    hide CompleteTx, ClaimTx, SortBy, Projected;
    var s := Reached(before);
    var op := Complete(process, ctx, done, env);
    var p := CompleteTx(s.d, VolatileOf(s, process), ctx, done, env).2.value;
    CompletionProjects(s.d, VolatileOf(s, process), ctx, done, env);
    CompleteStep(before, process, ctx, done, env);
    var k := ctx.key;
    var row := Reached(before + [op]).d.calls[k];
    ProjectedIsTerminal(row, p);
    TerminalRowsAreFrozen(before + [op], after, k);
    ReplayOfProjected(Reached(before + [op] + after).d, r, later, p);
  }

  lemma ProjectedIsTerminal(c: Call, p: seq<Projection>)
    requires Projected(c, p)
    ensures c.status != Claimed
  {}

  lemma CompleteStep(before: seq<Op>, process: nat, ctx: Context, done: Completion, env: Env)
    ensures var s := Reached(before);
            Reached(before + [Complete(process, ctx, done, env)]).d == CompleteTx(s.d, VolatileOf(s, process), ctx, done, env).0
  {
    hide CompleteTx;
    var op := Complete(process, ctx, done, env);
    RunAppend(INITIAL, before, [op]);
    assert [op][..0] == [] && [op][1..] == [];
  }

  lemma ReplayOfProjected(d: Durable, r: Request, env: Env, p: seq<Projection>)
    requires r.key in d.calls && Projected(d.calls[r.key], p) && ClaimTx(d, r, env).1.Ok?
    ensures var claim := ClaimTx(d, r, env).1.value;
            claim.kind == ReplayedCompleted(Projections(d.calls[r.key].id, d.calls[r.key].children, true))
            && |claim.kind.projections| == |p|
            && forall k :: 0 <= k < |p| ==> claim.kind.projections[k] == p[k].(cacheHit := true)
  {
    hide ReservationValid, WithinBudget;
  }
}
