/** The deterministic policy engine that turns a provider result into a decision per candidate. */
module AutoReviewPolicy {
  import opened Outcomes

  /** Entailment scores have four decimals and are held in units of 10^-4. */
  const MIN_ENTAILMENT := 9_800
  const MAX_CANDIDATES_PER_BATCH := 4

  datatype ClaimField = Title | ResultSummary | Reason
  datatype ClaimVerdict = Supported | PartiallySupported | Unsupported | Contradicted
  datatype ClaimScope = DirectFact | Inference | DecisionScope | Todo | UnknownScope

  /** Slots are held by ordinal: candidate slot 1 is written C01, evidence slot 1 is written E01. */
  datatype ClaimResult = ClaimResult(field: ClaimField, evidence: seq<nat>, verdict: ClaimVerdict, scope: ClaimScope, score: nat)
  datatype CandidateResult = CandidateResult(slot: nat, claims: seq<ClaimResult>, uncertainty: seq<string>, conflicts: seq<string>)

  datatype Decision = AutoApprove | HumanReview | NeedsMoreEvidence | ReuseTrusted | Eligible
  datatype ReasonCode = EligibleReason | TrustedExactMatch | ValidatorUnavailable | ValidatorMalformed
    | ValidatorNotSupported | ValidatorNotDirectFact | ValidatorScoreBelowThreshold | ValidatorUncertain
    | ValidatorConflict | PostValidationDrift | BudgetExceeded | OtherReason(code: string)

  datatype PolicyResult = PolicyResult(decision: Decision, reasons: seq<ReasonCode>)

  /** Eligibility is settled before validation and never approves by itself. */
  type EligibilityResult = r: PolicyResult | r.decision != AutoApprove witness PolicyResult(Eligible, [EligibleReason])

  datatype PolicyInput = PolicyInput(
    eligibility: EligibilityResult,
    expectedSlot: nat,
    expectedFields: seq<ClaimField>,
    expectedEvidence: seq<nat>,
    validatorAvailable: bool,
    validatorMalformed: bool,
    result: Option<CandidateResult>,
    identitySupported: bool,
    stateMatches: bool)

  const MALFORMED := PolicyResult(HumanReview, [ValidatorMalformed])

  predicate NoRepeats(s: seq<nat>) {
    forall i, j :: 0 <= i < j < |s| ==> s[i] != s[j]
  }

  /** A claim must cite at least one slot, no slot twice, and only its own candidate's slots. */
  predicate CitesOnly(claim: ClaimResult, allowed: seq<nat>) {
    claim.evidence != [] && NoRepeats(claim.evidence) && forall e :: e in claim.evidence ==> e in allowed
  }

  predicate WellFormedFor(v: PolicyInput, r: CandidateResult) {
    && r.slot == v.expectedSlot
    && |r.claims| == 2
    && seq(|r.claims|, i requires 0 <= i < |r.claims| => r.claims[i].field) == v.expectedFields
    && forall i :: 0 <= i < |r.claims| ==> CitesOnly(r.claims[i], v.expectedEvidence)
  }

  function EvaluateValidation(v: PolicyInput): PolicyResult {
    if v.eligibility.decision !in {Eligible, ReuseTrusted} then v.eligibility
    else if !v.identitySupported then PolicyResult(HumanReview, [ValidatorUnavailable])
    else if !v.stateMatches then PolicyResult(NeedsMoreEvidence, [PostValidationDrift])
    else if !v.validatorAvailable then PolicyResult(HumanReview, [ValidatorUnavailable])
    else if v.validatorMalformed || v.result.None? || !WellFormedFor(v, v.result.value) then MALFORMED
    else
      var r := v.result.value;
      if r.uncertainty != [] then PolicyResult(HumanReview, [ValidatorUncertain])
      else if r.conflicts != [] then PolicyResult(HumanReview, [ValidatorConflict])
      else if exists i :: 0 <= i < |r.claims| && r.claims[i].verdict != Supported then
        PolicyResult(HumanReview, [ValidatorNotSupported])
      else if exists i :: 0 <= i < |r.claims| && r.claims[i].scope != DirectFact then
        PolicyResult(HumanReview, [ValidatorNotDirectFact])
      else if r.claims[0].score < MIN_ENTAILMENT || r.claims[1].score < MIN_ENTAILMENT then
        PolicyResult(HumanReview, [ValidatorScoreBelowThreshold])
      else if v.eligibility.decision == ReuseTrusted then PolicyResult(ReuseTrusted, [TrustedExactMatch])
      else PolicyResult(AutoApprove, [EligibleReason])
  }

  predicate SlotsInOrder(values: seq<PolicyInput>) {
    forall i :: 0 <= i < |values| ==> values[i].expectedSlot == i + 1
  }

  function EvaluateEach(values: seq<PolicyInput>): seq<PolicyResult> {
    seq(|values|, i requires 0 <= i < |values| => EvaluateValidation(values[i]))
  }

  /** One malformed member turns the whole batch into human review. */
  function EvaluateBatch(values: seq<PolicyInput>): seq<PolicyResult> {
    if values == [] then []
    else
      var results := EvaluateEach(values);
      if |values| > MAX_CANDIDATES_PER_BATCH || !SlotsInOrder(values) || (exists r :: r in results && r.reasons == [ValidatorMalformed])
      then seq(|values|, i => MALFORMED)
      else results
  }

  // ---- What a batch decides

  /** The result is for this member's slot and fields, and each of its two claims cites some of this
      member's evidence, nothing else and nothing twice. */
  predicate ResultIsOwn(v: PolicyInput) {
    && !v.validatorMalformed && v.result.Some?
    && var r := v.result.value;
    && r.slot == v.expectedSlot && |r.claims| == 2 && v.expectedFields == [r.claims[0].field, r.claims[1].field]
    && forall c :: c in r.claims ==> CitesOwnEvidence(c.evidence, v.expectedEvidence)
  }

  predicate CitesOwnEvidence(cited: seq<nat>, own: seq<nat>) {
    && |cited| > 0
    && (forall i :: 0 <= i < |cited| ==> cited[i] in own)
    && (forall i, j :: 0 <= i < |cited| && 0 <= j < |cited| && cited[i] == cited[j] ==> i == j)
  }

  predicate Validatable(v: PolicyInput) { v.eligibility.decision == Eligible || v.eligibility.decision == ReuseTrusted }

  /** The validator was available under the supported identity, and nothing changed behind it. */
  predicate Asked(v: PolicyInput) { Validatable(v) && v.identitySupported && v.stateMatches && v.validatorAvailable }

  /** An asked member without a result of its own, or one that came in marked as malformed. */
  predicate Spoils(v: PolicyInput) {
    if Validatable(v) then Asked(v) && !ResultIsOwn(v) else v.eligibility.reasons == [ValidatorMalformed]
  }

  predicate Clean(r: CandidateResult) { r.uncertainty == [] && r.conflicts == [] }

  predicate AllSupported(r: CandidateResult) { forall c :: c in r.claims ==> c.verdict == Supported }

  predicate AllDirect(r: CandidateResult) { forall c :: c in r.claims ==> c.scope == DirectFact }

  /** Scores are in units of 10^-4. */
  predicate AllAbove(r: CandidateResult) { forall c :: c in r.claims ==> c.score >= 9_800 }

  /** What an automatic decision certifies. */
  predicate Certified(v: PolicyInput) {
    && Asked(v) && ResultIsOwn(v)
    && var r := v.result.value; Clean(r) && AllSupported(r) && AllDirect(r) && AllAbove(r)
  }

  predicate WellNumbered(values: seq<PolicyInput>) {
    1 <= |values| <= 4 && forall i :: 0 <= i < |values| ==> values[i].expectedSlot == i + 1
  }

  lemma OwnIsWellFormed(v: PolicyInput)
    ensures ResultIsOwn(v) <==> !v.validatorMalformed && v.result.Some? && WellFormedFor(v, v.result.value)
  {
    if v.result.Some? && |v.result.value.claims| == 2 {
      var claims := v.result.value.claims;
      assert seq(|claims|, i requires 0 <= i < |claims| => claims[i].field) == [claims[0].field, claims[1].field];
      forall i | 0 <= i < 2 ensures CitesOnly(claims[i], v.expectedEvidence) <==> CitesOwnEvidence(claims[i].evidence, v.expectedEvidence) {
        assert claims[i] in claims;
      }
    }
  }

  lemma TwoClaims(r: CandidateResult)
    requires |r.claims| == 2
    ensures AllSupported(r) <==> !exists i :: 0 <= i < |r.claims| && r.claims[i].verdict != Supported
    ensures AllDirect(r) <==> !exists i :: 0 <= i < |r.claims| && r.claims[i].scope != DirectFact
    ensures AllAbove(r) <==> r.claims[0].score >= 9_800 && r.claims[1].score >= 9_800
  {
    assert r.claims[0] in r.claims && r.claims[1] in r.claims;
  }

  /** The table of a single member: each outcome, exactly on the fields that cause it. */
  ghost predicate JudgedByTable(v: PolicyInput, r: PolicyResult) {
    && (!Validatable(v) ==> r == v.eligibility)
    && (Validatable(v) ==>
        && (r == PolicyResult(HumanReview, [ValidatorUnavailable]) <==> !v.identitySupported || (v.stateMatches && !v.validatorAvailable))
        && (r == PolicyResult(NeedsMoreEvidence, [PostValidationDrift]) <==> v.identitySupported && !v.stateMatches)
        && (r == PolicyResult(HumanReview, [ValidatorMalformed]) <==> Asked(v) && !ResultIsOwn(v)))
    && (Asked(v) && ResultIsOwn(v) ==>
        var c := v.result.value;
        && (r == PolicyResult(HumanReview, [ValidatorUncertain]) <==> c.uncertainty != [])
        && (r == PolicyResult(HumanReview, [ValidatorConflict]) <==> c.uncertainty == [] && c.conflicts != [])
        && (r == PolicyResult(HumanReview, [ValidatorNotSupported]) <==> Clean(c) && !AllSupported(c))
        && (r == PolicyResult(HumanReview, [ValidatorNotDirectFact]) <==> Clean(c) && AllSupported(c) && !AllDirect(c))
        && (r == PolicyResult(HumanReview, [ValidatorScoreBelowThreshold]) <==> Clean(c) && AllSupported(c) && AllDirect(c) && !AllAbove(c)))
    && (Validatable(v) ==>
        && (r.decision == AutoApprove <==> Certified(v) && v.eligibility.decision == Eligible)
        && (r.decision == ReuseTrusted <==> Certified(v) && v.eligibility.decision == ReuseTrusted)
        && (r.decision == AutoApprove ==> r.reasons == [EligibleReason])
        && (r.decision == ReuseTrusted ==> r.reasons == [TrustedExactMatch])
        && r.decision != Eligible)
  }

  lemma MemberIsJudgedByTable(v: PolicyInput)
    ensures JudgedByTable(v, EvaluateValidation(v))
  {
    OwnIsWellFormed(v);
    if Asked(v) && ResultIsOwn(v) {
      TwoClaims(v.result.value);
    }
    hide ResultIsOwn, WellFormedFor, AllSupported, AllDirect, AllAbove;
  }

  lemma SpoiledIsMalformed(v: PolicyInput)
    ensures Spoils(v) <==> EvaluateValidation(v).reasons == [ValidatorMalformed]
  {
    MemberIsJudgedByTable(v);
    hide ResultIsOwn;
  }

  lemma BatchOutcome(values: seq<PolicyInput>)
    ensures |EvaluateBatch(values)| == |values|
    ensures var spoiled := !WellNumbered(values) || exists k :: 0 <= k < |values| && Spoils(values[k]);
            forall i :: 0 <= i < |values| ==> EvaluateBatch(values)[i] == if spoiled then MALFORMED else EvaluateValidation(values[i])
  {
    var results := EvaluateEach(values);
    forall k | 0 <= k < |values| ensures Spoils(values[k]) <==> results[k].reasons == [ValidatorMalformed] {
      SpoiledIsMalformed(values[k]);
    }
    hide EvaluateValidation, Spoils;
    if k :| 0 <= k < |values| && Spoils(values[k]) {
      assert results[k] in results;
    }
  }

  /** In a well-numbered batch that nobody spoils, every member is judged by the table on its own
      fields alone: one that may not be validated gets exactly its eligibility. */
  lemma UnspoiledBatchIsJudgedByTable(values: seq<PolicyInput>, i: nat)
    requires WellNumbered(values) && i < |values| && forall k :: 0 <= k < |values| ==> !Spoils(values[k])
    ensures |EvaluateBatch(values)| == |values| && JudgedByTable(values[i], EvaluateBatch(values)[i])
  {
    BatchOutcome(values);
    MemberIsJudgedByTable(values[i]);
    hide EvaluateValidation, Spoils, JudgedByTable;
  }

  /** A member of any batch is decided automatically exactly when it is certified itself, the batch is
      well numbered, and nobody in it is spoiled; approved if it was eligible, reused if it was a
      trusted duplicate - and so never if its eligibility was anything else. */
  lemma AutomaticDecisionIffCertified(values: seq<PolicyInput>, i: nat)
    requires i < |values|
    ensures |EvaluateBatch(values)| == |values|
    ensures var sound := WellNumbered(values) && Certified(values[i]) && forall k :: 0 <= k < |values| ==> !Spoils(values[k]);
            var own := values[i].eligibility.decision;
            && (EvaluateBatch(values)[i].decision == AutoApprove <==> sound && own == Eligible)
            && (EvaluateBatch(values)[i].decision == ReuseTrusted <==> sound && own == ReuseTrusted)
  {
    BatchOutcome(values);
    MemberIsJudgedByTable(values[i]);
    hide EvaluateValidation, Spoils, ResultIsOwn, Clean, AllSupported, AllDirect, AllAbove;
  }

  /** One spoiled member, and nothing else, sends every member of a well-numbered batch to review. */
  lemma BatchIsSpoiledIff(values: seq<PolicyInput>)
    requires WellNumbered(values)
    ensures |EvaluateBatch(values)| == |values|
    ensures (forall i :: 0 <= i < |values| ==> EvaluateBatch(values)[i] == MALFORMED)
            <==> exists i :: 0 <= i < |values| && Spoils(values[i])
  {
    BatchOutcome(values);
    SpoiledIsMalformed(values[0]);
    hide EvaluateValidation, Spoils;
  }

  // ---- Eligibility, before any validation

  datatype EvidenceState = Exact | Missing | Changed | Mismatch
  datatype ItemType = TimelineEvent | HistoryEvent | OtherItem
  datatype Permission = Public | Internal | OtherPermission
  datatype TrustedTarget = TrustedTarget(itemType: ItemType, id: nat, fingerprint: string)

  datatype EligibilityInput = EligibilityInput(
    itemType: ItemType,
    permission: Permission,
    evidence: EvidenceState,
    payloadComplete: bool,
    uncertain: bool,
    highRisk: bool,
    projectSelectionRequired: bool,
    generationReady: bool,
    validatorCollision: bool,
    registryReady: bool,
    budgetAvailable: bool,
    projectionReady: bool,
    fingerprint: Option<string>,
    visible: seq<TrustedTarget>,
    hiddenCollision: bool,
    lookupAvailable: bool)

  function Review(code: string): EligibilityResult { PolicyResult(HumanReview, [OtherReason(code)]) }

  predicate IsExact(e: EligibilityInput, t: TrustedTarget) { t.itemType == e.itemType && e.fingerprint == Some(t.fingerprint) }

  function ExactTargets(e: EligibilityInput, targets: seq<TrustedTarget>): seq<TrustedTarget> {
    if targets == [] then [] else (if IsExact(e, targets[0]) then [targets[0]] else []) + ExactTargets(e, targets[1..])
  }

  function EvaluateEligibility(e: EligibilityInput): EligibilityResult {
    if e.itemType == OtherItem then Review("item_type_not_allowed")
    else if e.permission == OtherPermission then Review("permission_not_allowed")
    else if e.evidence == Changed then PolicyResult(NeedsMoreEvidence, [OtherReason("evidence_version_changed")])
    else if e.evidence == Missing then Review("evidence_missing")
    else if e.evidence != Exact then Review("evidence_binding_mismatch")
    else if !e.payloadComplete then Review("payload_not_supported")
    else if e.projectSelectionRequired then Review("project_selection_required")
    else if e.uncertain then Review("uncertainty_present")
    else if e.highRisk then Review("high_risk_language")
    else if e.validatorCollision then Review("validator_identity_collision")
    else if !e.generationReady then Review("generation_identity_missing")
    else if !e.registryReady then Review("registry_unavailable")
    else if !e.budgetAvailable then PolicyResult(HumanReview, [BudgetExceeded])
    else if !e.projectionReady || !e.lookupAvailable then Review("trusted_lookup_unavailable")
    else if e.fingerprint.None? || |e.fingerprint.value| != 64 then Review("payload_not_supported")
    else if e.hiddenCollision then Review("trusted_hidden_collision")
    else if e.visible != [] then
      if |e.visible| != 1 || |ExactTargets(e, e.visible)| != 1 then Review("trusted_visible_conflict")
      else PolicyResult(ReuseTrusted, [TrustedExactMatch])
    else PolicyResult(Eligible, [EligibleReason])
  }

  /** Everything an automatic decision takes for granted about its candidate. */
  predicate InGoodStanding(e: EligibilityInput) {
    && (e.itemType == TimelineEvent || e.itemType == HistoryEvent) && (e.permission == Public || e.permission == Internal)
    && e.evidence == Exact && e.payloadComplete && !e.projectSelectionRequired && !e.uncertain && !e.highRisk
    && !e.validatorCollision && e.generationReady && e.registryReady && e.budgetAvailable
    && e.projectionReady && e.lookupAvailable && e.fingerprint.Some? && |e.fingerprint.value| == 64 && !e.hiddenCollision
  }

  lemma OneTarget(e: EligibilityInput)
    requires |e.visible| == 1
    ensures |ExactTargets(e, e.visible)| == 1 <==> IsExact(e, e.visible[0])
  {
    assert e.visible[1..] == [] && ExactTargets(e, []) == [];
  }

  /** A candidate may be validated exactly in good standing, and with no visible target, or one of its
      own type and fingerprint. */
  lemma EligibleIff(e: EligibilityInput)
    ensures EvaluateEligibility(e).decision == Eligible <==> InGoodStanding(e) && e.visible == []
    ensures EvaluateEligibility(e).decision == ReuseTrusted <==>
            InGoodStanding(e) && |e.visible| == 1 && e.visible[0].itemType == e.itemType && e.fingerprint == Some(e.visible[0].fingerprint)
    ensures EvaluateEligibility(e).decision == NeedsMoreEvidence <==>
            e.itemType != OtherItem && e.permission != OtherPermission && e.evidence == Changed
  {
    if |e.visible| == 1 {
      OneTarget(e);
    }
    hide ExactTargets;
  }

  /** The eligibility checks in order, and the reason each gives. */
  const CHECKS: seq<string> := [
    "item_type_not_allowed", "permission_not_allowed", "evidence_version_changed", "evidence_missing", "evidence_binding_mismatch",
    "payload_not_supported", "project_selection_required", "uncertainty_present", "high_risk_language", "validator_identity_collision",
    "generation_identity_missing", "registry_unavailable", "budget_exceeded", "trusted_lookup_unavailable", "payload_not_supported",
    "trusted_hidden_collision", "trusted_visible_conflict"]

  /** Check `i` has something against the candidate. */
  predicate Objects(e: EligibilityInput, i: nat) {
    if i == 0 then e.itemType != TimelineEvent && e.itemType != HistoryEvent
    else if i == 1 then e.permission != Public && e.permission != Internal
    else if i == 2 then e.evidence == Changed
    else if i == 3 then e.evidence == Missing
    else if i == 4 then e.evidence == Mismatch
    else if i == 5 then !e.payloadComplete
    else if i == 6 then e.projectSelectionRequired
    else if i == 7 then e.uncertain
    else if i == 8 then e.highRisk
    else if i == 9 then e.validatorCollision
    else if i == 10 then !e.generationReady
    else if i == 11 then !e.registryReady
    else if i == 12 then !e.budgetAvailable
    else if i == 13 then !(e.projectionReady && e.lookupAvailable)
    else if i == 14 then |e.fingerprint.GetOr("")| != 64
    else if i == 15 then e.hiddenCollision
    else i == 16 && e.visible != [] && !(|e.visible| == 1 && IsExact(e, e.visible[0]))
  }

  /** An ineligible candidate gets the reason of the first check that objects: review for all but a
      changed version, which asks for more evidence. */
  lemma FirstObjectionDecides(e: EligibilityInput, i: nat)
    requires i < |CHECKS| && Objects(e, i) && forall j: nat :: j < i ==> !Objects(e, j)
    ensures EvaluateEligibility(e) ==
            PolicyResult(if i == 2 then NeedsMoreEvidence else HumanReview, [if i == 12 then BudgetExceeded else OtherReason(CHECKS[i])])
  {
    assert !Objects(e, 0) || i == 0;
    assert i > 1 ==> !Objects(e, 1);
    assert i > 2 ==> !Objects(e, 2);
    assert i > 3 ==> !Objects(e, 3);
    assert i > 4 ==> !Objects(e, 4);
    assert i > 5 ==> !Objects(e, 5);
    assert i > 6 ==> !Objects(e, 6);
    assert i > 7 ==> !Objects(e, 7);
    assert i > 8 ==> !Objects(e, 8);
    assert i > 9 ==> !Objects(e, 9);
    assert i > 10 ==> !Objects(e, 10);
    assert i > 11 ==> !Objects(e, 11);
    assert i > 12 ==> !Objects(e, 12);
    assert i > 13 ==> !Objects(e, 13);
    assert i > 14 ==> !Objects(e, 14);
    assert i > 15 ==> !Objects(e, 15);
    if |e.visible| == 1 {
      OneTarget(e);
    }
    hide ExactTargets;
  }

  /** From the candidate to the decision: whatever a batch approves automatically was in good standing
      without a trusted duplicate, and was certified by its own result. */
  lemma ApprovedWasInGoodStanding(values: seq<PolicyInput>, i: nat, e: EligibilityInput)
    requires i < |values| && values[i].eligibility == EvaluateEligibility(e) && |EvaluateBatch(values)| == |values|
    requires EvaluateBatch(values)[i].decision == AutoApprove
    ensures InGoodStanding(e) && e.visible == [] && Certified(values[i])
  {
    AutomaticDecisionIffCertified(values, i);
    EligibleIff(e);
    hide EvaluateBatch, EvaluateEligibility, InGoodStanding, Certified, Spoils;
  }
}
