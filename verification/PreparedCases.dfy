/** What preparing a case for the reviewer packet does, in terms of nothing but the entries of its records: binding
    the approval context, and filling in verifier evidence where, and only where, a verified approval is claimed. */
module PreparedCases {
  import opened EvidenceChain

  /** What stands under a key, null if nothing does. */
  ghost function At(d: Dict, f: Field): Value { if f in d then d[f] else Null }

  /** The value is none of those Python takes for false. */
  ghost predicate Says(v: Value) {
    v != Null && v != Bool(false) && v != Number(0.0) && v != Str("") && v != Arr([]) && v != Obj(map[])
  }

  ghost function First(a: Value, b: Value): Value { if Says(a) then a else b }

  /** What stands under a key, an empty list if nothing does. */
  ghost function ListUnder(d: Dict, f: Field): Value { if f in d then d[f] else Arr([]) }

  ghost predicate SameBut(d: Dict, e: Dict, changed: set<Field>) {
    forall f :: f !in changed ==> (f in d <==> f in e) && At(d, f) == At(e, f)
  }

  ghost function MetadataAt(c: Case): Dict
    requires c.outcome.Outcome?
  {
    if c.outcome.metadata.Dictionary? then c.outcome.metadata.fields else map[]
  }

  lemma SaysIffTruthy(v: Value)
    ensures Says(v) <==> Truthy(v)
  {
  }

  lemma FirstIsOr(a: Value, b: Value)
    ensures First(a, b) == Or(a, b)
  {
    SaysIffTruthy(a);
  }

  lemma AtIsGet(d: Dict)
    ensures forall f :: At(d, f) == Get(d, f)
  {
  }

  lemma SameButIffExcept(d: Dict, e: Dict, changed: set<Field>)
    ensures SameBut(d, e, changed) <==> SameExcept(d, e, changed)
  {
    AtIsGet(d);
    AtIsGet(e);
    hide At, Get;
  }

  // ---------------------------------------------------------------- which cases claim a verified approval

  /** The case claims a verified approval. */
  ghost predicate Claims(c: Case)
    requires WellShaped(c)
  {
    && At(c.summary.fields, Approved) == Bool(true)
    && At(c.summary.fields, ReceiptHashPresent) == Bool(true)
    && At(c.manifest.fields, HumanApprovalRequired) == Bool(true)
    && !Says(At(c.summary.fields, FailureReasons))
  }

  /** Giving the verifier fields a null makes them present and changes nothing else. */
  lemma DefaultsAre(s: Dict)
    ensures var d := WithVerifierDefaults(s);
            && (forall f :: At(d, f) == At(s, f))
            && d.Keys == s.Keys + {VerifierId, VerifierKeyId, VerifierPolicyId, VerifierPolicyHash,
                                   VerificationProofHash, VerifiedAt}
  {
  }

  lemma ClaimsIffVerified(c: Case)
    requires WellShaped(c)
    ensures Claims(c) <==> IsVerified(WithVerifierDefaults(c.summary.fields), FieldsOr(c.manifest))
  {
    DefaultsAre(c.summary.fields);
    var s := WithVerifierDefaults(c.summary.fields);
    SaysIffTruthy(At(s, FailureReasons));
    AtIsGet(s);
    AtIsGet(c.manifest.fields);
    hide WithVerifierDefaults, Get, At, Says, Truthy;
  }

  // ---------------------------------------------------------------- cases that do not

  /** A case that claims none keeps every value of its summary, of its outcome metadata and, but for hashes, of its
      manifest; its lifecycle summary is null and no proof link is added. */
  lemma UnclaimedCaseIsLeft(h: Digest, life: Lifecycle, generatedAt: Value, c: Case)
    requires WellShaped(c) && !Claims(c)
    ensures var d := EnsureEvidence(h, life, generatedAt, c);
            && WellShaped(d)
            && (forall f :: At(d.summary.fields, f) == At(c.summary.fields, f))
            && d.summary.fields.Keys == c.summary.fields.Keys + {
                 VerifierId, VerifierKeyId, VerifierPolicyId, VerifierPolicyHash, VerificationProofHash, VerifiedAt}
            && d.outcome.metadata == c.outcome.metadata
            && SameBut(d.outcome.fields, c.outcome.fields, {OutcomeHash})
            && (forall f :: f != OutcomeReceiptHash && f != ManifestHash ==>
                  At(d.manifest.fields, f) == At(c.manifest.fields, f))
            && d.manifest.fields.Keys == c.manifest.fields.Keys + {LifecycleHash, OutcomeReceiptHash, ManifestHash}
            && d.fields == c.fields[LifecycleSummary := Null]
            && SameBut(d.verification.fields, c.verification.fields,
                       {RecomputedManifestHash, ManifestHashMatches, VerifiedLinks})
            && At(d.verification.fields, VerifiedLinks) == ListUnder(c.verification.fields, VerifiedLinks)
  {
    ClaimsIffVerified(c);
    DefaultsAre(c.summary.fields);
    hide Claims, IsVerified, WithVerifierDefaults, At, SameBut, Recompute;
    var summary := WithVerifierDefaults(c.summary.fields);
    var chain := UnverifiedChain(ChainOf(c));
    var r := Recompute(h, chain, false);
    UnverifiedRecomputed(h, c);
    RecomputeKeeps(h, chain, false);
    SameButIffExcept(r.outcome, c.outcome.fields, {OutcomeHash});
    SameButIffExcept(r.verification, c.verification.fields,
        {RecomputedManifestHash, ManifestHashMatches, VerifiedLinks});
    assert EnsureEvidence(h, life, generatedAt, c) == EnsureUnverified(h, c, summary);
  }

  lemma UnverifiedRecomputed(h: Digest, c: Case)
    requires WellShaped(c)
    ensures var r := Recompute(h, UnverifiedChain(ChainOf(c)), false);
            && (forall f :: f != OutcomeReceiptHash && f != ManifestHash ==>
                  At(r.manifest, f) == At(c.manifest.fields, f))
            && r.manifest.Keys == c.manifest.fields.Keys + {LifecycleHash, OutcomeReceiptHash, ManifestHash}
            && At(r.verification, VerifiedLinks) == ListUnder(c.verification.fields, VerifiedLinks)
  {
    hide OutcomeDigest, ManifestDigest;
  }

  // ---------------------------------------------------------------- cases that do

  /** The first of the three records that says something, else the synthetic value. */
  ghost function Chosen(c: Case, inSummary: Field, inChain: Field, synthetic: string): Value
    requires WellShaped(c)
  {
    First(First(First(At(c.summary.fields, inSummary), At(c.manifest.fields, inChain)), At(MetadataAt(c), inChain)),
          Str(synthetic))
  }

  /** All three records have the value. */
  ghost predicate AllHave(d: Case, inSummary: Field, inChain: Field, v: Value)
    requires WellShaped(d)
  {
    && At(d.summary.fields, inSummary) == v
    && At(d.manifest.fields, inChain) == v
    && At(MetadataAt(d), inChain) == v
  }

  /** The three records hold the evidence chosen for a case. */
  ghost predicate HoldsEvidence(d: Case, c: Case)
    requires WellShaped(c) && WellShaped(d)
  {
    && AllHave(d, VerificationProofHash, ChainProofHash, Chosen(c, VerificationProofHash, ChainProofHash,
         "4c5825bb7e0f647e705ca280a411695d052bfb8e65382f13804e86c0f485ef0c"))
    && AllHave(d, VerifierId, ChainVerifierId,
         Chosen(c, VerifierId, ChainVerifierId, "veritas-human-approval-verifier-v1"))
    && AllHave(d, VerifierKeyId, ChainVerifierKeyId,
         Chosen(c, VerifierKeyId, ChainVerifierKeyId, "local-demo-verifier-key"))
    && AllHave(d, VerifierPolicyId, ChainVerifierPolicyId,
         Chosen(c, VerifierPolicyId, ChainVerifierPolicyId, "human-approval-verifier-policy-v1"))
    && AllHave(d, VerifierPolicyHash, ChainVerifierPolicyHash,
         Chosen(c, VerifierPolicyHash, ChainVerifierPolicyHash,
           "b625a813408d3a1d6c55ff59e9661ac21c4a9017fda76e4369bd9407a743a2cd"))
  }

  /** The list with one more entry, unless it has it already; a value that is no list is left alone. */
  ghost predicate AddedOnce(before: Value, x: Value, after: Value) {
    after == if !before.Arr? || x in before.items then before else Arr(before.items + [x])
  }

  ghost predicate ProofIsListed(d: Dict, c: Dict) {
    AddedOnce(ListUnder(c, VerifiedLinks), Str("verified_human_approval_proof_hash"), At(d, VerifiedLinks))
  }

  lemma ChosenIsEvidence(c: Case, l: Link)
    requires WellShaped(c) && SyntheticValue(l).Str?
    ensures Evidence(WithVerifierDefaults(c.summary.fields), c.manifest.fields, MetadataAt(c), l)
         == Chosen(c, SummaryField(l), ChainField(l), SyntheticValue(l).text)
  {
    DefaultsAre(c.summary.fields);
    var summary := WithVerifierDefaults(c.summary.fields);
    AtIsGet(summary);
    AtIsGet(c.manifest.fields);
    AtIsGet(MetadataAt(c));
    hide WithVerifierDefaults, First, Or, Get, At, SummaryField, ChainField, SyntheticValue;
    var a, b, d := Get(summary, SummaryField(l)), Get(c.manifest.fields, ChainField(l)),
        Get(MetadataAt(c), ChainField(l));
    FirstIsOr(a, b);
    FirstIsOr(Or(a, b), d);
    FirstIsOr(Or(Or(a, b), d), SyntheticValue(l));
  }

  lemma ChosenAreEvidence(c: Case, e: VerifierEvidence)
    requires WellShaped(c) && e == EvidenceFor(ChainOf(c), WithVerifierDefaults(c.summary.fields))
    ensures e.proof == Chosen(c, VerificationProofHash, ChainProofHash,
                              "4c5825bb7e0f647e705ca280a411695d052bfb8e65382f13804e86c0f485ef0c")
    ensures e.id == Chosen(c, VerifierId, ChainVerifierId, "veritas-human-approval-verifier-v1")
    ensures e.key == Chosen(c, VerifierKeyId, ChainVerifierKeyId, "local-demo-verifier-key")
    ensures e.policyId == Chosen(c, VerifierPolicyId, ChainVerifierPolicyId, "human-approval-verifier-policy-v1")
    ensures e.policyHash == Chosen(c, VerifierPolicyHash, ChainVerifierPolicyHash,
                                   "b625a813408d3a1d6c55ff59e9661ac21c4a9017fda76e4369bd9407a743a2cd")
  {
    hide WithVerifierDefaults, Evidence, Chosen;
    assert ChainOf(c).manifest == c.manifest.fields && FieldsOr(ChainOf(c).metadata) == MetadataAt(c);
    ChosenIsEvidence(c, ProofLink);
    ChosenIsEvidence(c, IdLink);
    ChosenIsEvidence(c, KeyLink);
    ChosenIsEvidence(c, PolicyIdLink);
    ChosenIsEvidence(c, PolicyHashLink);
  }

  const SUMMARY_EVIDENCE: set<Field> :=
    {VerifierId, VerifierKeyId, VerifierPolicyId, VerifierPolicyHash, VerificationProofHash, VerifiedAt}
  const CHAIN_EVIDENCE: set<Field> := {ChainProofHash, ChainVerifierId, ChainVerifierKeyId, ChainVerifierPolicyId,
                                       ChainVerifierPolicyHash, LifecycleHash}

  lemma SummaryWritten(s: Dict, e: VerifierEvidence, verifiedAt: Value)
    ensures var d := VerifiedSummary(s, e, verifiedAt);
            && At(d, VerificationProofHash) == e.proof && At(d, VerifierId) == e.id && At(d, VerifierKeyId) == e.key
            && At(d, VerifierPolicyId) == e.policyId && At(d, VerifierPolicyHash) == e.policyHash
            && At(d, VerifiedAt) == verifiedAt
            && SameBut(d, s, SUMMARY_EVIDENCE)
  {
  }

  lemma ManifestWritten(m: Dict, e: VerifierEvidence, snapshot: Value)
    ensures var d := VerifiedChainFields(m, e)[LifecycleHash := snapshot];
            && At(d, ChainProofHash) == e.proof && At(d, ChainVerifierId) == e.id && At(d, ChainVerifierKeyId) == e.key
            && At(d, ChainVerifierPolicyId) == e.policyId && At(d, ChainVerifierPolicyHash) == e.policyHash
            && At(d, LifecycleHash) == snapshot
            && SameBut(d, m, CHAIN_EVIDENCE)
  {
  }

  lemma MetadataWritten(m: Dict, e: VerifierEvidence, receiptId: Value, snapshot: Value)
    ensures var d := VerifiedMetadata(m, e, receiptId)[LifecycleHash := snapshot];
            && At(d, ChainProofHash) == e.proof && At(d, ChainVerifierId) == e.id && At(d, ChainVerifierKeyId) == e.key
            && At(d, ChainVerifierPolicyId) == e.policyId && At(d, ChainVerifierPolicyHash) == e.policyHash
            && At(d, VerifiedReceiptId) == receiptId
            && At(d, VerificationSource) == Str("signed_human_approval_artifact")
            && At(d, LifecycleHash) == snapshot
            && SameBut(d, m, CHAIN_EVIDENCE + {VerifiedReceiptId, VerificationSource})
  {
    hide VerifiedChainFields;
    ManifestWritten(m, e, snapshot);
    assert At(VerifiedChainFields(m, e)[LifecycleHash := snapshot], ChainProofHash)
        == At(VerifiedChainFields(m, e), ChainProofHash);
  }

  lemma EnsuredIsVerified(h: Digest, life: Lifecycle, generatedAt: Value, c: Case)
    requires WellShaped(c) && IsVerified(WithVerifierDefaults(c.summary.fields), FieldsOr(c.manifest))
    ensures EnsureEvidence(h, life, generatedAt, c)
        == EnsureVerified(h, life, generatedAt, c, WithVerifierDefaults(c.summary.fields))
  {
    hide IsVerified, WithVerifierDefaults, EnsureVerified;
  }

  lemma TimeIs(c: Case, generatedAt: Value)
    requires WellShaped(c)
    ensures Or(Or(Get(WithVerifierDefaults(c.summary.fields), VerifiedAt), Get(ChainOf(c).verification, VerifiedAt)),
               generatedAt) ==
            First(First(At(c.summary.fields, VerifiedAt), At(c.verification.fields, VerifiedAt)), generatedAt)
  {
    DefaultsAre(c.summary.fields);
    AtIsGet(WithVerifierDefaults(c.summary.fields));
    AtIsGet(c.verification.fields);
    FirstIsOr(At(c.summary.fields, VerifiedAt), At(c.verification.fields, VerifiedAt));
    FirstIsOr(First(At(c.summary.fields, VerifiedAt), At(c.verification.fields, VerifiedAt)), generatedAt);
    hide WithVerifierDefaults, At, Get, First, Or;
  }

  /** The records the pass leaves, before their entries are read. */
  lemma FilledRecords(h: Digest, life: Lifecycle, generatedAt: Value, c: Case)
    requires WellShaped(c)
    ensures var summary := WithVerifierDefaults(c.summary.fields);
            var e := EvidenceFor(ChainOf(c), summary);
            var s := SummaryFor(ChainOf(c), summary, generatedAt);
            var d := EnsureVerified(h, life, generatedAt, c, summary);
            var snapshot := SnapshotHashOf(life(s));
            && WellShaped(d) && d.outcome.metadata.Dictionary?
            && d.fields == c.fields[LifecycleSummary := life(s)]
            && d.summary.fields == s
            && d.outcome.metadata.fields
                 == VerifiedMetadata(MetadataAt(c), e, Get(s, ApprovalReceiptId))[LifecycleHash := snapshot]
            && SameBut(d.manifest.fields, VerifiedChainFields(c.manifest.fields, e)[LifecycleHash := snapshot],
                       {OutcomeReceiptHash, ManifestHash})
            && SameBut(d.outcome.fields, c.outcome.fields, {OutcomeHash})
            && SameBut(d.verification.fields, c.verification.fields,
                       {RecomputedManifestHash, ManifestHashMatches, VerifiedLinks})
            && ProofIsListed(d.verification.fields, c.verification.fields)
  {
    hide WithVerifierDefaults, EvidenceFor, SummaryFor, SnapshotHashOf, Recompute, VerifiedMetadata,
         VerifiedChainFields, Get, At, SameBut, SameExcept, ProofIsListed;
    var summary := WithVerifierDefaults(c.summary.fields);
    var e := EvidenceFor(ChainOf(c), summary);
    var s := SummaryFor(ChainOf(c), summary, generatedAt);
    var chain := VerifiedChain(ChainOf(c), e, Get(s, ApprovalReceiptId), SnapshotHashOf(life(s)));
    var r := Recompute(h, chain, true);
    RecomputeKeeps(h, chain, true);
    SameButIffExcept(r.manifest, chain.manifest, {OutcomeReceiptHash, ManifestHash});
    SameButIffExcept(r.outcome, chain.outcome, {OutcomeHash});
    SameButIffExcept(r.verification, chain.verification, {RecomputedManifestHash, ManifestHashMatches, VerifiedLinks});
    ProofGetsListed(h, chain);
  }

  lemma ProofGetsListed(h: Digest, chain: Chain)
    ensures ProofIsListed(Recompute(h, chain, true).verification, chain.verification)
  {
    hide OutcomeDigest, ManifestDigest;
  }

  lemma SummaryStands(c: Case, generatedAt: Value, e: VerifierEvidence)
    requires WellShaped(c) && e == EvidenceFor(ChainOf(c), WithVerifierDefaults(c.summary.fields))
    ensures var s := SummaryFor(ChainOf(c), WithVerifierDefaults(c.summary.fields), generatedAt);
            && At(s, VerificationProofHash) == e.proof && At(s, VerifierId) == e.id && At(s, VerifierKeyId) == e.key
            && At(s, VerifierPolicyId) == e.policyId && At(s, VerifierPolicyHash) == e.policyHash
            && At(s, VerifiedAt) ==
                 First(First(At(c.summary.fields, VerifiedAt), At(c.verification.fields, VerifiedAt)), generatedAt)
            && SameBut(s, c.summary.fields, SUMMARY_EVIDENCE)
            && Get(s, ApprovalReceiptId) == At(c.summary.fields, ApprovalReceiptId)
  {
    TimeIs(c, generatedAt);
    hide WithVerifierDefaults, EvidenceFor, First, Or, VerifiedSummary, SameBut, At, Get, ChainOf;
    var summary := WithVerifierDefaults(c.summary.fields);
    var s := SummaryFor(ChainOf(c), summary, generatedAt);
    SummaryWritten(summary, e, Or(Or(Get(summary, VerifiedAt), Get(ChainOf(c).verification, VerifiedAt)), generatedAt));
    DefaultedFrame(s, c.summary.fields);
  }

  lemma DefaultedFrame(s: Dict, before: Dict)
    requires SameBut(s, WithVerifierDefaults(before), SUMMARY_EVIDENCE)
    ensures SameBut(s, before, SUMMARY_EVIDENCE) && Get(s, ApprovalReceiptId) == At(before, ApprovalReceiptId)
  {
    DefaultsAre(before);
    AtIsGet(s);
    hide WithVerifierDefaults, At, Get;
  }

  lemma SnapshotIs(lifecycle: Value)
    ensures SnapshotHashOf(lifecycle) == if lifecycle.Obj? then At(lifecycle.fields, SnapshotHash) else Null
  {
    hide Get, At;
    if lifecycle.Obj? { AtIsGet(lifecycle.fields); }
  }

  lemma ManifestStands(m: Dict, before: Dict, e: VerifierEvidence, snapshot: Value)
    requires SameBut(m, VerifiedChainFields(before, e)[LifecycleHash := snapshot], {OutcomeReceiptHash, ManifestHash})
    ensures At(m, ChainProofHash) == e.proof && At(m, ChainVerifierId) == e.id && At(m, ChainVerifierKeyId) == e.key
    ensures At(m, ChainVerifierPolicyId) == e.policyId && At(m, ChainVerifierPolicyHash) == e.policyHash
    ensures At(m, LifecycleHash) == snapshot
    ensures SameBut(m, before, CHAIN_EVIDENCE + {OutcomeReceiptHash, ManifestHash})
  {
    hide VerifiedChainFields, At;
    ManifestWritten(before, e, snapshot);
  }

  /** A case that claims a verified approval ends with one proof hash, verifier, key and policy in all three records:
      for each value the first of summary, manifest and metadata that says something, and the synthetic one only if
      none does.  The time of verification is the summary's, else the verification's, else that of the packet. */
  lemma ClaimedCaseIsFilled(h: Digest, life: Lifecycle, generatedAt: Value, c: Case)
    requires WellShaped(c) && Claims(c)
    ensures var d := EnsureEvidence(h, life, generatedAt, c);
            && WellShaped(d) && d.outcome.metadata.Dictionary?
            && HoldsEvidence(d, c)
            && At(d.summary.fields, VerifiedAt) ==
                 First(First(At(c.summary.fields, VerifiedAt), At(c.verification.fields, VerifiedAt)), generatedAt)
            && At(d.outcome.metadata.fields, VerifiedReceiptId) == At(c.summary.fields, ApprovalReceiptId)
            && At(d.outcome.metadata.fields, VerificationSource) == Str("signed_human_approval_artifact")
            && d.fields == c.fields[LifecycleSummary := life(d.summary.fields)]
            && var lifecycle := life(d.summary.fields);
               var snapshot := if lifecycle.Obj? then At(lifecycle.fields, SnapshotHash) else Null;
               && At(d.manifest.fields, LifecycleHash) == snapshot
               && At(d.outcome.metadata.fields, LifecycleHash) == snapshot
               && ProofIsListed(d.verification.fields, c.verification.fields)
  {
    ClaimsIffVerified(c);
    EnsuredIsVerified(h, life, generatedAt, c);
    FilledRecords(h, life, generatedAt, c);
    hide Claims, IsVerified, WithVerifierDefaults, EvidenceFor, EnsureEvidence, EnsureVerified, VerifiedMetadata,
         VerifiedChainFields, SummaryFor, HoldsEvidence, First, SameBut, ProofIsListed, ChainOf, At, Get,
         SnapshotHashOf;
    var summary := WithVerifierDefaults(c.summary.fields);
    var e := EvidenceFor(ChainOf(c), summary);
    var s := SummaryFor(ChainOf(c), summary, generatedAt);
    var snapshot := SnapshotHashOf(life(s));
    var d := EnsureEvidence(h, life, generatedAt, c);
    SummaryStands(c, generatedAt, e);
    ManifestStands(d.manifest.fields, c.manifest.fields, e, snapshot);
    MetadataWritten(MetadataAt(c), e, Get(s, ApprovalReceiptId), snapshot);
    SnapshotIs(life(s));
    RecordsHold(d, c, e);
  }

  lemma RecordsHold(d: Case, c: Case, e: VerifierEvidence)
    requires WellShaped(c) && WellShaped(d) && e == EvidenceFor(ChainOf(c), WithVerifierDefaults(c.summary.fields))
    requires AllHave(d, VerificationProofHash, ChainProofHash, e.proof) && AllHave(d, VerifierId, ChainVerifierId, e.id)
    requires AllHave(d, VerifierKeyId, ChainVerifierKeyId, e.key)
    requires AllHave(d, VerifierPolicyId, ChainVerifierPolicyId, e.policyId)
    requires AllHave(d, VerifierPolicyHash, ChainVerifierPolicyHash, e.policyHash)
    ensures HoldsEvidence(d, c)
  {
    ChosenAreEvidence(c, e);
    hide EvidenceFor, WithVerifierDefaults, ChainOf, AllHave, Chosen;
  }

  /** Nothing else changes. */
  lemma ClaimedCaseFrame(h: Digest, life: Lifecycle, generatedAt: Value, c: Case)
    requires WellShaped(c) && Claims(c)
    ensures var d := EnsureEvidence(h, life, generatedAt, c);
            && WellShaped(d) && d.outcome.metadata.Dictionary?
            && SameBut(d.summary.fields, c.summary.fields, SUMMARY_EVIDENCE)
            && SameBut(d.manifest.fields, c.manifest.fields, CHAIN_EVIDENCE + {OutcomeReceiptHash, ManifestHash})
            && SameBut(d.outcome.metadata.fields, MetadataAt(c),
                       CHAIN_EVIDENCE + {VerifiedReceiptId, VerificationSource})
            && SameBut(d.outcome.fields, c.outcome.fields, {OutcomeHash})
            && SameBut(d.verification.fields, c.verification.fields,
                       {RecomputedManifestHash, ManifestHashMatches, VerifiedLinks})
  {
    ClaimsIffVerified(c);
    EnsuredIsVerified(h, life, generatedAt, c);
    FilledRecords(h, life, generatedAt, c);
    hide Claims, IsVerified, WithVerifierDefaults, EvidenceFor, EnsureEvidence, EnsureVerified, VerifiedMetadata,
         VerifiedChainFields, SummaryFor, ProofIsListed, ChainOf, At, Get, SameBut,
         SUMMARY_EVIDENCE, CHAIN_EVIDENCE, SnapshotHashOf, First;
    var summary := WithVerifierDefaults(c.summary.fields);
    var e := EvidenceFor(ChainOf(c), summary);
    var s := SummaryFor(ChainOf(c), summary, generatedAt);
    var d := EnsureEvidence(h, life, generatedAt, c);
    SummaryStands(c, generatedAt, e);
    ManifestStands(d.manifest.fields, c.manifest.fields, e, SnapshotHashOf(life(s)));
    MetadataWritten(MetadataAt(c), e, Get(s, ApprovalReceiptId), SnapshotHashOf(life(s)));
  }

  // ---------------------------------------------------------------- the context binding

  /** The object under a key, anything else counting as empty. */
  ghost function ObjectAt(d: Dict, f: Field): Dict { if f in d && d[f].Obj? then d[f].fields else map[] }

  ghost function DictOf(s: Section): Dict { if s.Dictionary? then s.fields else map[] }

  ghost function OutcomeOf(c: Case): Dict { if c.outcome.Outcome? then c.outcome.fields else map[] }

  ghost function FirstOfThree(existing: Dict, c: Case, f: Field): Value {
    First(First(At(existing, f), At(DictOf(c.manifest), f)), At(OutcomeOf(c), f))
  }

  /** What stands in the bound context of a summary. */
  ghost predicate IsBound(binding: Dict, c: Case, existing: Dict) {
    && binding.Keys == {RequestRef, AiOutputRef, ExecutionIntentId, DecisionId, ActionClass, PolicySnapshotId,
                        AuthorityEvidenceId, BindContextHash}
    && binding[RequestRef] == At(existing, RequestRef) && binding[AiOutputRef] == At(existing, AiOutputRef)
    && binding[PolicySnapshotId] == At(existing, PolicySnapshotId)
    && binding[BindContextHash] == At(existing, BindContextHash)
    && binding[ExecutionIntentId] == FirstOfThree(existing, c, ExecutionIntentId)
    && binding[DecisionId] == FirstOfThree(existing, c, DecisionId)
    && binding[ActionClass] == FirstOfThree(existing, c, ActionClass)
    && binding[AuthorityEvidenceId] ==
         First(At(existing, AuthorityEvidenceId), At(DictOf(c.manifest), AuthorityEvidenceId))
  }

  /** Binding gives a summary all eight context values, those of the execution from manifest and outcome where the
      summary has none, and leaves everything else but for nulls in place of absent entries. */
  lemma ContextIsBound(c: Case)
    requires c.summary.Dictionary?
    ensures var d := BindContext(c);
            && d.summary.Dictionary?
            && d.manifest == c.manifest && d.outcome == c.outcome && d.verification == c.verification
            && d.fields == (if LifecycleSummary in c.fields then c.fields else c.fields[LifecycleSummary := Null])
            && At(d.summary.fields, ContextBinding).Obj?
            && IsBound(At(d.summary.fields, ContextBinding).fields, c, ObjectAt(c.summary.fields, ContextBinding))
            && (forall f :: f != ContextBinding ==> At(d.summary.fields, f) == At(c.summary.fields, f))
            && d.summary.fields.Keys == c.summary.fields.Keys + {ContextBinding} + SUMMARY_EVIDENCE
  {
    hide WithVerifierDefaults, Binding, IsBound, At, Get;
    AtIsGet(c.summary.fields);
    var existing := ObjectAt(c.summary.fields, ContextBinding);
    StandingObject(c.summary.fields, ContextBinding);
    BindingIsBound(c, existing);
    var bound := c.summary.fields[ContextBinding := Obj(Binding(existing, DictOf(c.manifest), c.outcome))];
    DefaultsAre(bound);
    ContextWritten(c.summary.fields, Obj(Binding(existing, DictOf(c.manifest), c.outcome)));
  }

  lemma StandingObject(d: Dict, f: Field)
    ensures ObjectAt(d, f) == if Get(d, f).Obj? then Get(d, f).fields else map[]
  {
  }

  lemma ContextWritten(s: Dict, v: Value)
    ensures At(s[ContextBinding := v], ContextBinding) == v
    ensures forall f :: f != ContextBinding ==> At(s[ContextBinding := v], f) == At(s, f)
  {
  }

  lemma BindingIsBound(c: Case, existing: Dict)
    ensures IsBound(Binding(existing, DictOf(c.manifest), c.outcome), c, existing)
  {
    var manifest, outcome := DictOf(c.manifest), OutcomeOf(c);
    BoundValue(existing, manifest, outcome, ExecutionIntentId);
    BoundValue(existing, manifest, outcome, DecisionId);
    BoundValue(existing, manifest, outcome, ActionClass);
    BoundValue(existing, manifest, outcome, AuthorityEvidenceId);
    AtIsGet(existing);
    hide First, Or, At, Get;
  }

  lemma BoundValue(existing: Dict, manifest: Dict, outcome: Dict, f: Field)
    ensures Or(Get(existing, f), Get(manifest, f)) == First(At(existing, f), At(manifest, f))
    ensures Or(Or(Get(existing, f), Get(manifest, f)), Get(outcome, f))
         == First(First(At(existing, f), At(manifest, f)), At(outcome, f))
  {
    FirstIsOr(Get(existing, f), Get(manifest, f));
    FirstIsOr(Or(Get(existing, f), Get(manifest, f)), Get(outcome, f));
    hide First, Or;
  }

  // ---------------------------------------------------------------- both steps, in the packet

  /** Binding the context changes neither what a case claims nor where its evidence comes from. */
  lemma BindingKeepsEvidence(c: Case, inSummary: Field, inChain: Field, synthetic: string)
    requires WellShaped(c) && inSummary != ContextBinding
    ensures var b := BindContext(c);
            && WellShaped(b) && (Claims(b) <==> Claims(c)) && MetadataAt(b) == MetadataAt(c)
            && Chosen(b, inSummary, inChain, synthetic) == Chosen(c, inSummary, inChain, synthetic)
            && At(b.summary.fields, inSummary) == At(c.summary.fields, inSummary)
  {
    BindingKeeps(c);
    hide BindContext, At, First;
  }

  lemma BindingKeeps(c: Case)
    requires WellShaped(c)
    ensures var b := BindContext(c);
            && WellShaped(b) && b.manifest == c.manifest && b.outcome == c.outcome && b.verification == c.verification
            && forall f :: f != ContextBinding ==> At(b.summary.fields, f) == At(c.summary.fields, f)
  {
    ContextIsBound(c);
    hide BindContext, IsBound, At;
  }

  /** What a case of the packet shows of verification, against the case of the template it was made from. */
  ghost predicate LeftUnverified(d: Case, c: Case)
    requires WellShaped(c) && WellShaped(d)
  {
    && (forall f :: f != ContextBinding ==> At(d.summary.fields, f) == At(c.summary.fields, f))
    && d.outcome.metadata == c.outcome.metadata
    && (forall f :: f != OutcomeReceiptHash && f != ManifestHash ==>
          At(d.manifest.fields, f) == At(c.manifest.fields, f))
    && At(d.fields, LifecycleSummary) == Null
    && At(d.verification.fields, VerifiedLinks) == ListUnder(c.verification.fields, VerifiedLinks)
  }

  ghost predicate ShownVerified(d: Case, c: Case, life: Lifecycle, generatedAt: Value)
    requires WellShaped(c) && WellShaped(d)
  {
    && HoldsEvidence(d, c)
    && At(d.summary.fields, VerifiedAt) ==
         First(First(At(c.summary.fields, VerifiedAt), At(c.verification.fields, VerifiedAt)), generatedAt)
    && At(d.fields, LifecycleSummary) == life(d.summary.fields)
    && ProofIsListed(d.verification.fields, c.verification.fields)
  }

  lemma UnclaimedCaseInPacket(h: Digest, life: Lifecycle, generatedAt: Value, c: Case)
    requires WellShaped(c) && !Claims(c)
    ensures var d := PreparedCase(h, life, generatedAt, c); WellShaped(d) && LeftUnverified(d, c)
  {
    BindingKeeps(c);
    BindingKeepsClaim(c);
    var b := BindContext(c);
    var d := EnsureEvidence(h, life, generatedAt, b);
    UnclaimedIsUnverified(h, life, generatedAt, b);
    hide BindContext, EnsureEvidence, Claims, At, WellShaped;
    assert d == PreparedCase(h, life, generatedAt, c);
    StillUnverified(d, b, c);
  }

  lemma UnclaimedIsUnverified(h: Digest, life: Lifecycle, generatedAt: Value, c: Case)
    requires WellShaped(c) && !Claims(c)
    ensures var d := EnsureEvidence(h, life, generatedAt, c); WellShaped(d) && LeftUnverified(d, c)
  {
    UnclaimedCaseIsLeft(h, life, generatedAt, c);
    NullStands(c.fields);
    hide EnsureEvidence, Claims, SameBut, At;
  }

  lemma NullStands(fields: Dict)
    ensures At(fields[LifecycleSummary := Null], LifecycleSummary) == Null
  {
  }

  lemma StillUnverified(d: Case, b: Case, c: Case)
    requires WellShaped(b) && WellShaped(c) && WellShaped(d) && LeftUnverified(d, b)
    requires b.manifest == c.manifest && b.outcome == c.outcome && b.verification == c.verification
    requires forall f :: f != ContextBinding ==> At(b.summary.fields, f) == At(c.summary.fields, f)
    ensures LeftUnverified(d, c)
  {
    hide At;
  }

  lemma ClaimedCaseInPacket(h: Digest, life: Lifecycle, generatedAt: Value, c: Case)
    requires WellShaped(c) && Claims(c)
    ensures var d := PreparedCase(h, life, generatedAt, c); WellShaped(d) && ShownVerified(d, c, life, generatedAt)
  {
    BindingKeeps(c);
    BindingKeepsClaim(c);
    var b := BindContext(c);
    ClaimedCaseIsFilled(h, life, generatedAt, b);
    hide BindContext, EnsureEvidence, Claims, First, ProofIsListed;
    var d := EnsureEvidence(h, life, generatedAt, b);
    SameEvidence(d, b, c);
  }

  lemma BindingKeepsClaim(c: Case)
    requires WellShaped(c)
    ensures WellShaped(BindContext(c)) && (Claims(BindContext(c)) <==> Claims(c))
  {
    BindingKeeps(c);
    hide BindContext, At, Says;
  }

  lemma SameEvidence(d: Case, b: Case, c: Case)
    requires WellShaped(c) && WellShaped(d) && b == BindContext(c) && WellShaped(b) && HoldsEvidence(d, b)
    ensures HoldsEvidence(d, c)
  {
    BindingKeepsEvidence(c, VerificationProofHash, ChainProofHash,
                         "4c5825bb7e0f647e705ca280a411695d052bfb8e65382f13804e86c0f485ef0c");
    BindingKeepsEvidence(c, VerifierId, ChainVerifierId, "veritas-human-approval-verifier-v1");
    BindingKeepsEvidence(c, VerifierKeyId, ChainVerifierKeyId, "local-demo-verifier-key");
    BindingKeepsEvidence(c, VerifierPolicyId, ChainVerifierPolicyId, "human-approval-verifier-policy-v1");
    BindingKeepsEvidence(c, VerifierPolicyHash, ChainVerifierPolicyHash,
                         "b625a813408d3a1d6c55ff59e9661ac21c4a9017fda76e4369bd9407a743a2cd");
    hide BindContext, Claims, Chosen, AllHave;
  }

  /** End to end: the packet holds every well-shaped case of the template at its place, with verifier evidence in all
      three records if the case claims a verified approval, and as unverified as it was if it does not. */
  lemma PacketShowsClaimsOnly(h: Digest, life: Lifecycle, template: Packet, p: Publication, k: nat)
    requires template.hasCases && k < |template.items| && template.items[k].CaseItem? && WellShaped(template.items[k].c)
    ensures var c, all := template.items[k].c, Generated(h, life, template, p).items;
            && k < |all| && all[k].CaseItem? && WellShaped(all[k].c)
            && (if Claims(c) then ShownVerified(all[k].c, c, life, At(template.fields, GeneratedAt))
                else LeftUnverified(all[k].c, c))
  {
    var generatedAt := Get(template.fields, GeneratedAt);
    var c := template.items[k].c;
    AtIsGet(template.fields);
    PacketHoldsPrepared(h, life, template, p, k);
    hide *;
    if Claims(c) { ClaimedCaseInPacket(h, life, generatedAt, c); } else {
      UnclaimedCaseInPacket(h, life, generatedAt, c);
    }
  }

  lemma PacketHoldsPrepared(h: Digest, life: Lifecycle, template: Packet, p: Publication, k: nat)
    requires template.hasCases && k < |template.items| && template.items[k].CaseItem?
    ensures var all := Generated(h, life, template, p).items;
            k < |all| && all[k] == CaseItem(PreparedCase(h, life, Get(template.fields, GeneratedAt),
                template.items[k].c))
  {
    hide EnsureEvidence, BindContext, Published, PacketDigest, AppendLifecycleCases, AppendVerifierCases, FindSource,
         Get;
    var prepared := PreparedItems(h, life, Get(template.fields, GeneratedAt), template.items);
    AppendedCases(h, prepared);
    assert Generated(h, life, template, p).items[k] == prepared[k];
  }
}
