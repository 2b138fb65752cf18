/** The records of a reviewer evidence packet as values, and what
    `scripts/demo/generate_reviewer_evidence_packet_from_evaluation_governance_chain.py` makes of them.

    `EvidencePacket` holds the same records as mutable objects and is proved against the functions here.
    The canonical-JSON SHA-256 digest is a parameter `h` of which nothing is assumed. */
module EvidenceChain {
  import opened Optional

  /** The dictionary keys the generator names, and all others. */
  datatype Field =
    // a packet
    | Cases | DemoId | GeneratedAt | Title | SummaryText | LocalOfflineOnly | GovernanceArtifacts | KeyProvenance
    | ReviewerNotes | PacketHash
    // a case
    | CaseId | ReviewerInterpretation | BoundaryNote | ExpectedOutcome | ActualOutcome | RuntimeRecommendedOutcome
    | Passed | FailureReasons | LifecycleSummary
    | HumanApprovalSummary | ManifestSummary | OutcomeSummary | VerificationSummary
    // the human approval summary
    | Approved | ReceiptHashPresent | ApprovalReceiptId | ContextBinding
    | VerifierId | VerifierKeyId | VerifierPolicyId | VerifierPolicyHash | VerificationProofHash | VerifiedAt
    // its context binding
    | RequestRef | AiOutputRef | ExecutionIntentId | DecisionId | ActionClass | PolicySnapshotId | AuthorityEvidenceId
    | BindContextHash
    // the manifest and the outcome metadata
    | HumanApprovalRequired | OutcomeReceiptHash | ManifestHash | LifecycleHash
    | ChainProofHash | ChainVerifierId | ChainVerifierKeyId | ChainVerifierPolicyId | ChainVerifierPolicyHash
    | VerifiedReceiptId | VerificationSource
    // the outcome receipt
    | OutcomeHash | Metadata
    // the verification summary
    | IsValid | VerificationStatus | ManifestHashMatches | RecomputedManifestHash | VerifiedLinks | MissingLinks
    | MismatchedLinks | LifecycleContinuityVerified | LifecycleContinuityFailureReasons
    // the lifecycle summary
    | SnapshotHash
    | Named(name: string)

  datatype Value =
    | Null
    | Bool(b: bool)
    | Number(n: real)
    | Str(text: string)
    | Arr(items: seq<Value>)
    | Obj(fields: Dict)

  type Dict = map<Field, Value>

  type Digest = Value -> string

  function Get(d: Dict, f: Field): Value { if f in d then d[f] else Null }

  function SetDefault(d: Dict, f: Field, v: Value): Dict { if f in d then d else d[f := v] }

  predicate Truthy(v: Value) {
    match v
    case Null => false
    case Bool(b) => b
    case Number(n) => n != 0.0
    case Str(s) => s != ""
    case Arr(items) => items != []
    case Obj(fields) => fields != map[]
  }

  /** Python's `or`. */
  function Or(a: Value, b: Value): Value { if Truthy(a) then a else b }

  /** What a dictionary holds under a key where the generator expects another dictionary. */
  datatype Section = Dictionary(fields: Dict) | Plain(value: Option<Value>)

  /** The outcome receipt has a dictionary of its own under "metadata"; `fields` are its other entries. */
  datatype Receipt = Outcome(fields: Dict, metadata: Section) | NoOutcome(value: Option<Value>)

  /** A case: its four sections and its other entries. */
  datatype Case = Case(fields: Dict, summary: Section, manifest: Section, outcome: Receipt, verification: Section)

  datatype Item = CaseItem(c: Case) | OtherItem(value: Value)

  // ---------------------------------------------------------------- the records as JSON

  function Put(d: Dict, f: Field, s: Section): Dict {
    match s
    case Dictionary(fields) => d[f := Obj(fields)]
    case Plain(Some(v)) => d[f := v]
    case Plain(None) => d - {f}
  }

  function OutcomeDict(fields: Dict, metadata: Section): Dict { Put(fields, Metadata, metadata) }

  function ReceiptSection(r: Receipt): Section {
    match r
    case Outcome(fields, metadata) => Dictionary(OutcomeDict(fields, metadata))
    case NoOutcome(value) => Plain(value)
  }

  function CaseValue(c: Case): Value {
    Obj(Put(Put(Put(Put(c.fields, HumanApprovalSummary, c.summary), ManifestSummary, c.manifest),
                OutcomeSummary, ReceiptSection(c.outcome)), VerificationSummary, c.verification))
  }

  function ItemValue(i: Item): Value {
    match i
    case CaseItem(c) => CaseValue(c)
    case OtherItem(v) => v
  }

  // ---------------------------------------------------------------- nested hashes

  /** The three records whose hashes cover one another. */
  datatype Chain = Chain(manifest: Dict, outcome: Dict, metadata: Section, verification: Dict)

  function OutcomeDigest(h: Digest, outcome: Dict, metadata: Section): Value {
    Str(h(Obj(OutcomeDict(outcome, metadata) - {OutcomeHash})))
  }

  function ManifestDigest(h: Digest, manifest: Dict): Value { Str(h(Obj(manifest - {ManifestHash}))) }

  const PROOF_LINK := Str("verified_human_approval_proof_hash")

  /** `xs.append(x)` unless it is there or `xs` is no list. */
  function AppendOnce(list: Value, x: Value): Value {
    if list.Arr? && x !in list.items then Arr(list.items + [x]) else list
  }

  function VerificationOf(verification: Dict, manifestHash: Value, includeProofLink: bool): Dict {
    var v := SetDefault(verification[RecomputedManifestHash := manifestHash][ManifestHashMatches := Bool(true)],
                        VerifiedLinks, Arr([]));
    if includeProofLink then v[VerifiedLinks := AppendOnce(v[VerifiedLinks], PROOF_LINK)] else v
  }

  /** `_recompute_nested_hashes`. */
  function Recompute(h: Digest, c: Chain, includeProofLink: bool): Chain {
    var outcome := c.outcome[OutcomeHash := OutcomeDigest(h, c.outcome, c.metadata)];
    var linked := c.manifest[OutcomeReceiptHash := outcome[OutcomeHash]];
    var manifest := linked[ManifestHash := ManifestDigest(h, linked)];
    Chain(manifest, outcome, c.metadata, VerificationOf(c.verification, manifest[ManifestHash], includeProofLink))
  }

  /** Every hash in the chain is the digest of what it covers. */
  ghost predicate Consistent(h: Digest, c: Chain) {
    && Get(c.outcome, OutcomeHash) == OutcomeDigest(h, c.outcome, c.metadata)
    && Get(c.manifest, OutcomeReceiptHash) == Get(c.outcome, OutcomeHash)
    && Get(c.manifest, ManifestHash) == ManifestDigest(h, c.manifest)
    && Get(c.verification, RecomputedManifestHash) == Get(c.manifest, ManifestHash)
    && Get(c.verification, ManifestHashMatches) == Bool(true)
  }

  /** A digest does not see the field it is stored in. */
  lemma DigestIgnoresItself(h: Digest, outcome: Dict, metadata: Section, manifest: Dict, v: Value)
    ensures OutcomeDigest(h, outcome[OutcomeHash := v], metadata) == OutcomeDigest(h, outcome, metadata)
    ensures ManifestDigest(h, manifest[ManifestHash := v]) == ManifestDigest(h, manifest)
  {
    assert OutcomeDict(outcome[OutcomeHash := v], metadata) - {OutcomeHash}
        == OutcomeDict(outcome, metadata) - {OutcomeHash};
    assert manifest[ManifestHash := v] - {ManifestHash} == manifest - {ManifestHash};
  }

  lemma RecomputeIsConsistent(h: Digest, c: Chain, includeProofLink: bool)
    ensures Consistent(h, Recompute(h, c, includeProofLink))
  {
    var outcome := c.outcome[OutcomeHash := OutcomeDigest(h, c.outcome, c.metadata)];
    var linked := c.manifest[OutcomeReceiptHash := outcome[OutcomeHash]];
    DigestIgnoresItself(h, c.outcome, c.metadata, linked, OutcomeDigest(h, c.outcome, c.metadata));
    DigestIgnoresItself(h, c.outcome, c.metadata, linked, ManifestDigest(h, linked));
    hide OutcomeDigest, ManifestDigest;
  }

  /** Recomputing a second time changes nothing. */
  lemma RecomputeIsIdempotent(h: Digest, c: Chain, includeProofLink: bool)
    ensures var r := Recompute(h, c, includeProofLink); Recompute(h, r, includeProofLink) == r
  {
    hide OutcomeDigest, ManifestDigest;
    var outcome := c.outcome[OutcomeHash := OutcomeDigest(h, c.outcome, c.metadata)];
    var linked := c.manifest[OutcomeReceiptHash := outcome[OutcomeHash]];
    var r := Recompute(h, c, includeProofLink);
    DigestIgnoresItself(h, c.outcome, c.metadata, linked, OutcomeDigest(h, c.outcome, c.metadata));
    DigestIgnoresItself(h, c.outcome, c.metadata, linked, ManifestDigest(h, linked));
    assert r.outcome[OutcomeHash := r.outcome[OutcomeHash]] == r.outcome;
    assert r.manifest[OutcomeReceiptHash := r.manifest[OutcomeReceiptHash]] == r.manifest;
    VerificationIsIdempotent(c.verification, r.manifest[ManifestHash], includeProofLink);
  }

  lemma VerificationIsIdempotent(v: Dict, manifestHash: Value, includeProofLink: bool)
    ensures var w := VerificationOf(v, manifestHash, includeProofLink);
        VerificationOf(w, manifestHash, includeProofLink) == w
  {
  }

  /** The two dictionaries agree on every key outside `changed`. */
  ghost predicate SameExcept(d: Dict, e: Dict, changed: set<Field>) {
    forall f :: f !in changed ==> (f in d <==> f in e) && Get(d, f) == Get(e, f)
  }

  lemma SameExceptTrans(a: Dict, b: Dict, c: Dict, some: set<Field>, changed: set<Field>)
    requires SameExcept(a, b, some) && some <= changed && SameExcept(b, c, changed)
    ensures SameExcept(a, c, changed)
  {
  }

  lemma UpdateFrame(d: Dict, f: Field, v: Value)
    ensures SameExcept(d[f := v], d, {f}) && Get(d[f := v], f) == v
  {
  }

  lemma SameAt(a: Dict, b: Dict, changed: set<Field>, f: Field)
    requires SameExcept(a, b, changed) && f !in changed
    ensures Get(a, f) == Get(b, f)
  {
  }

  /** What recomputing writes into the verification summary. */
  const RECOMPUTED_REPORT: set<Field> := {RecomputedManifestHash, ManifestHashMatches, VerifiedLinks}

  lemma RecomputeKeeps(h: Digest, c: Chain, includeProofLink: bool)
    ensures var r := Recompute(h, c, includeProofLink);
            && r.metadata == c.metadata
            && SameExcept(r.manifest, c.manifest, {OutcomeReceiptHash, ManifestHash})
            && SameExcept(r.outcome, c.outcome, {OutcomeHash})
            && SameExcept(r.verification, c.verification, RECOMPUTED_REPORT)
  {
    hide OutcomeDigest, ManifestDigest, AppendOnce;
  }

  // ---------------------------------------------------------------- cases and their chains

  function FieldsOr(s: Section): Dict { if s.Dictionary? then s.fields else map[] }

  /** The chain the generator works on: a section that is no dictionary is replaced by a fresh empty one. */
  function ChainOf(c: Case): Chain {
    Chain(FieldsOr(c.manifest), if c.outcome.Outcome? then c.outcome.fields else map[],
          if c.outcome.Outcome? then c.outcome.metadata else Plain(None), FieldsOr(c.verification))
  }

  /** The case after its chain was updated in place: fresh dictionaries are not part of it. */
  function WithChain(c: Case, chain: Chain): Case {
    c.(manifest := if c.manifest.Dictionary? then Dictionary(chain.manifest) else c.manifest,
       outcome := if c.outcome.Outcome? then Outcome(chain.outcome, chain.metadata) else c.outcome,
       verification := if c.verification.Dictionary? then Dictionary(chain.verification) else c.verification)
  }

  predicate WellShaped(c: Case) {
    c.summary.Dictionary? && c.manifest.Dictionary? && c.outcome.Outcome? && c.verification.Dictionary?
  }

  ghost predicate CaseConsistent(h: Digest, c: Case) { Consistent(h, ChainOf(c)) }

  predicate SameShape(c: Case, d: Case) {
    && c.summary.Dictionary? == d.summary.Dictionary?
    && c.manifest.Dictionary? == d.manifest.Dictionary?
    && c.outcome.Outcome? == d.outcome.Outcome?
    && c.verification.Dictionary? == d.verification.Dictionary?
  }

  lemma ChainRoundTrip(c: Case, chain: Chain)
    ensures WellShaped(c) ==> ChainOf(WithChain(c, chain)) == chain && WellShaped(WithChain(c, chain))
    ensures SameShape(c, WithChain(c, chain))
    ensures WithChain(c, chain).fields == c.fields && WithChain(c, chain).summary == c.summary
  {
  }

  lemma LastChainWins(c: Case, first: Chain, fields: Dict, second: Chain)
    ensures WithChain(WithChain(c, first).(fields := fields), second) == WithChain(c.(fields := fields), second)
  {
  }

  lemma RechainedIsConsistent(h: Digest, c: Case, chain: Chain, includeProofLink: bool)
    ensures WellShaped(c) ==> CaseConsistent(h, WithChain(c, Recompute(h, chain, includeProofLink)))
  {
    RecomputeIsConsistent(h, chain, includeProofLink);
    ChainRoundTrip(c, Recompute(h, chain, includeProofLink));
    hide ChainOf, WithChain, Recompute, Consistent;
  }

  // ---------------------------------------------------------------- context binding

  function OutcomeField(r: Receipt, f: Field): Value { Get(if r.Outcome? then r.fields else map[], f) }

  function Binding(existing: Dict, manifest: Dict, outcome: Receipt): Dict {
    map[
      RequestRef := Get(existing, RequestRef),
      AiOutputRef := Get(existing, AiOutputRef),
      ExecutionIntentId := Or(Or(Get(existing, ExecutionIntentId), Get(manifest, ExecutionIntentId)),
          OutcomeField(outcome, ExecutionIntentId)),
      DecisionId := Or(Or(Get(existing, DecisionId), Get(manifest, DecisionId)), OutcomeField(outcome, DecisionId)),
      ActionClass := Or(Or(Get(existing, ActionClass), Get(manifest, ActionClass)), OutcomeField(outcome, ActionClass)),
      PolicySnapshotId := Get(existing, PolicySnapshotId),
      AuthorityEvidenceId := Or(Get(existing, AuthorityEvidenceId), Get(manifest, AuthorityEvidenceId)),
      BindContextHash := Get(existing, BindContextHash)]
  }

  /** `summary.setdefault(field, None)` for the six verifier fields. */
  function WithVerifierDefaults(s: Dict): Dict {
    SetDefault(SetDefault(SetDefault(SetDefault(SetDefault(SetDefault(s, VerifierId, Null), VerifierKeyId, Null),
      VerifierPolicyId, Null), VerifierPolicyHash, Null), VerificationProofHash, Null), VerifiedAt, Null)
  }

  function BoundSummary(s: Dict, manifest: Dict, outcome: Receipt): Dict {
    var existing := if Get(s, ContextBinding).Obj? then Get(s, ContextBinding).fields else map[];
    WithVerifierDefaults(s[ContextBinding := Obj(Binding(existing, manifest, outcome))])
  }

  /** The body of the loop of `_ensure_human_approval_context_binding`. */
  function BindContext(c: Case): Case {
    if !c.summary.Dictionary? then c
    else c.(summary := Dictionary(BoundSummary(c.summary.fields, FieldsOr(c.manifest), c.outcome)),
            fields := SetDefault(c.fields, LifecycleSummary, Null))
  }

  // ---------------------------------------------------------------- verifier evidence

  /** `_is_verified_approval_case`. */
  predicate IsVerified(summary: Dict, manifest: Dict) {
    && Get(summary, Approved) == Bool(true)
    && Get(summary, ReceiptHashPresent) == Bool(true)
    && Get(manifest, HumanApprovalRequired) == Bool(true)
    && !Truthy(Get(summary, FailureReasons))
  }

  /** The five values that must be the same in summary, manifest and metadata. */
  datatype Link = ProofLink | IdLink | KeyLink | PolicyIdLink | PolicyHashLink

  function SummaryField(l: Link): Field {
    match l
    case ProofLink => VerificationProofHash
    case IdLink => VerifierId
    case KeyLink => VerifierKeyId
    case PolicyIdLink => VerifierPolicyId
    case PolicyHashLink => VerifierPolicyHash
  }

  function ChainField(l: Link): Field {
    match l
    case ProofLink => ChainProofHash
    case IdLink => ChainVerifierId
    case KeyLink => ChainVerifierKeyId
    case PolicyIdLink => ChainVerifierPolicyId
    case PolicyHashLink => ChainVerifierPolicyHash
  }

  function SyntheticValue(l: Link): Value {
    match l
    case ProofLink => Str("4c5825bb7e0f647e705ca280a411695d052bfb8e65382f13804e86c0f485ef0c")
    case IdLink => Str("veritas-human-approval-verifier-v1")
    case KeyLink => Str("local-demo-verifier-key")
    case PolicyIdLink => Str("human-approval-verifier-policy-v1")
    case PolicyHashLink => Str("b625a813408d3a1d6c55ff59e9661ac21c4a9017fda76e4369bd9407a743a2cd")
  }

  /** The first of summary, manifest, metadata and the synthetic value that says something. */
  function Evidence(summary: Dict, manifest: Dict, metadata: Dict, l: Link): Value {
    Or(Or(Or(Get(summary, SummaryField(l)), Get(manifest, ChainField(l))), Get(metadata, ChainField(l))),
        SyntheticValue(l))
  }

  datatype VerifierEvidence = VerifierEvidence(proof: Value, id: Value, key: Value, policyId: Value, policyHash: Value)

  function EvidenceOf(summary: Dict, manifest: Dict, metadata: Dict): VerifierEvidence {
    VerifierEvidence(Evidence(summary, manifest, metadata, ProofLink), Evidence(summary, manifest, metadata, IdLink),
                     Evidence(summary, manifest, metadata, KeyLink),
                     Evidence(summary, manifest, metadata, PolicyIdLink),
                     Evidence(summary, manifest, metadata, PolicyHashLink))
  }

  function VerifiedSummary(s: Dict, e: VerifierEvidence, verifiedAt: Value): Dict {
    s[VerifierId := e.id][VerifierKeyId := e.key][VerifierPolicyId := e.policyId][VerifierPolicyHash := e.policyHash]
     [VerificationProofHash := e.proof][VerifiedAt := verifiedAt]
  }

  function VerifiedChainFields(d: Dict, e: VerifierEvidence): Dict {
    d[ChainProofHash := e.proof][ChainVerifierId := e.id][ChainVerifierKeyId := e.key]
     [ChainVerifierPolicyId := e.policyId][ChainVerifierPolicyHash := e.policyHash]
  }

  function VerifiedMetadata(d: Dict, e: VerifierEvidence, receiptId: Value): Dict {
    VerifiedChainFields(d, e)[VerifiedReceiptId := receiptId]
                             [VerificationSource := Str("signed_human_approval_artifact")]
  }

  function SnapshotHashOf(lifecycle: Value): Value {
    if lifecycle.Obj? then Get(lifecycle.fields, SnapshotHash) else Null
  }

  /** The lifecycle summary that `verifier_lifecycle_summary_from_human_approval` derives from a summary. */
  type Lifecycle = Dict -> Value

  function UnverifiedChain(chain: Chain): Chain {
    chain.(manifest := SetDefault(chain.manifest, LifecycleHash, Null))
  }

  function EnsureUnverified(h: Digest, c: Case, summary: Dict): Case {
    WithChain(c.(fields := c.fields[LifecycleSummary := Null], summary := Dictionary(summary)),
              Recompute(h, UnverifiedChain(ChainOf(c)), false))
  }

  function EvidenceFor(chain: Chain, summary: Dict): VerifierEvidence {
    EvidenceOf(summary, chain.manifest, FieldsOr(chain.metadata))
  }

  function SummaryFor(chain: Chain, summary: Dict, generatedAt: Value): Dict {
    VerifiedSummary(summary, EvidenceFor(chain, summary),
                    Or(Or(Get(summary, VerifiedAt), Get(chain.verification, VerifiedAt)), generatedAt))
  }

  function Filled(chain: Chain, e: VerifierEvidence, receiptId: Value): Chain {
    chain.(manifest := VerifiedChainFields(chain.manifest, e),
           metadata := Dictionary(VerifiedMetadata(FieldsOr(chain.metadata), e, receiptId)))
  }

  function Snapshotted(chain: Chain, snapshot: Value): Chain {
    chain.(manifest := chain.manifest[LifecycleHash := snapshot],
           metadata := Dictionary(FieldsOr(chain.metadata)[LifecycleHash := snapshot]))
  }

  function VerifiedChain(chain: Chain, e: VerifierEvidence, receiptId: Value, snapshot: Value): Chain {
    Snapshotted(Filled(chain, e, receiptId), snapshot)
  }

  function EnsureVerified(h: Digest, life: Lifecycle, generatedAt: Value, c: Case, summary: Dict): Case {
    var chain := ChainOf(c);
    var s := SummaryFor(chain, summary, generatedAt);
    var lifecycle := life(s);
    WithChain(c.(fields := c.fields[LifecycleSummary := lifecycle], summary := Dictionary(s)),
              Recompute(h, VerifiedChain(chain, EvidenceFor(chain, summary), Get(s, ApprovalReceiptId),
                  SnapshotHashOf(lifecycle)), true))
  }

  /** The body of the loop of `_ensure_human_approval_verifier_evidence`. */
  function EnsureEvidence(h: Digest, life: Lifecycle, generatedAt: Value, c: Case): Case {
    if !c.summary.Dictionary? then c
    else
      var summary := WithVerifierDefaults(c.summary.fields);
      if !IsVerified(summary, FieldsOr(c.manifest)) then EnsureUnverified(h, c, summary)
      else EnsureVerified(h, life, generatedAt, c, summary)
  }

  lemma EnsureIgnoresSummary(h: Digest, life: Lifecycle, generatedAt: Value, c: Case, s: Dict)
    ensures EnsureUnverified(h, c.(summary := Dictionary(s)), s) == EnsureUnverified(h, c, s)
    ensures EnsureVerified(h, life, generatedAt, c.(summary := Dictionary(s)), s)
        == EnsureVerified(h, life, generatedAt, c, s)
  {
    hide Recompute, EvidenceFor, VerifiedChain, UnverifiedChain, SummaryFor, SnapshotHashOf;
    assert ChainOf(c.(summary := Dictionary(s))) == ChainOf(c);
  }

  lemma EnsureIsConsistent(h: Digest, life: Lifecycle, generatedAt: Value, c: Case)
    ensures SameShape(c, EnsureEvidence(h, life, generatedAt, c))
    ensures WellShaped(c) ==> CaseConsistent(h, EnsureEvidence(h, life, generatedAt, c))
  {
    hide Recompute, WithVerifierDefaults, IsVerified, CaseConsistent, SummaryFor, EvidenceFor, VerifiedChain,
         UnverifiedChain, ChainOf, WithChain, FieldsOr, SnapshotHashOf;
    if c.summary.Dictionary? {
      var summary := WithVerifierDefaults(c.summary.fields);
      var chain := ChainOf(c);
      if !IsVerified(summary, FieldsOr(c.manifest)) {
        var base := c.(fields := c.fields[LifecycleSummary := Null], summary := Dictionary(summary));
        RechainedIsConsistent(h, base, UnverifiedChain(chain), false);
        ChainRoundTrip(base, Recompute(h, UnverifiedChain(chain), false));
      } else {
        var s := SummaryFor(chain, summary, generatedAt);
        var lifecycle := life(s);
        var base := c.(fields := c.fields[LifecycleSummary := lifecycle], summary := Dictionary(s));
        var verified := VerifiedChain(chain, EvidenceFor(chain, summary), Get(s, ApprovalReceiptId),
            SnapshotHashOf(lifecycle));
        RechainedIsConsistent(h, base, verified, true);
        ChainRoundTrip(base, Recompute(h, verified, true));
      }
    }
  }

  // ---------------------------------------------------------------- continuity

  function MetadataOf(c: Case): Dict { FieldsOr(ChainOf(c).metadata) }

  /** Summary, manifest and outcome metadata carry the same value. */
  predicate LinkHolds(c: Case, l: Link) {
    && Get(FieldsOr(c.summary), SummaryField(l)) == Get(FieldsOr(c.manifest), ChainField(l))
    && Get(FieldsOr(c.manifest), ChainField(l)) == Get(MetadataOf(c), ChainField(l))
  }

  /** Manifest and outcome metadata carry the same lifecycle snapshot hash. */
  predicate LifecycleHolds(c: Case) { Get(FieldsOr(c.manifest), LifecycleHash) == Get(MetadataOf(c), LifecycleHash) }

  lemma EvidenceIsTruthy(summary: Dict, manifest: Dict, metadata: Dict)
    ensures var e := EvidenceOf(summary, manifest, metadata);
            Truthy(e.proof) && Truthy(e.id) && Truthy(e.key) && Truthy(e.policyId) && Truthy(e.policyHash)
  {
    assert forall l: Link :: Truthy(SyntheticValue(l));
    hide SyntheticValue;
    assert forall l: Link :: Truthy(Evidence(summary, manifest, metadata, l));
  }

  function Part(e: VerifierEvidence, l: Link): Value {
    match l
    case ProofLink => e.proof
    case IdLink => e.id
    case KeyLink => e.key
    case PolicyIdLink => e.policyId
    case PolicyHashLink => e.policyHash
  }

  lemma VerifiedChainLinks(chain: Chain, e: VerifierEvidence, receiptId: Value, snapshot: Value, l: Link)
    ensures var v := VerifiedChain(chain, e, receiptId, snapshot);
            && v.metadata.Dictionary?
            && Get(v.manifest, ChainField(l)) == Part(e, l) == Get(v.metadata.fields, ChainField(l))
            && Get(v.manifest, LifecycleHash) == snapshot == Get(v.metadata.fields, LifecycleHash)
  {
  }

  lemma VerifiedSummaryLinks(s: Dict, e: VerifierEvidence, verifiedAt: Value, l: Link)
    ensures Get(VerifiedSummary(s, e, verifiedAt), SummaryField(l)) == Part(e, l)
  {
  }

  /** After the evidence pass a verified, well-shaped case is coherent: all five values are present and agree in the
      three records, and so does the lifecycle snapshot hash. */
  lemma VerifiedCaseIsCoherent(h: Digest, life: Lifecycle, generatedAt: Value, c: Case)
    requires WellShaped(c) && IsVerified(WithVerifierDefaults(c.summary.fields), c.manifest.fields)
    ensures var d := EnsureEvidence(h, life, generatedAt, c);
            && WellShaped(d) && d.outcome.metadata.Dictionary?
            && (forall l: Link :: LinkHolds(d, l) && Truthy(Get(d.summary.fields, SummaryField(l))))
            && LifecycleHolds(d)
            && Get(d.manifest.fields, LifecycleHash) == SnapshotHashOf(life(d.summary.fields))
  {
    hide WithVerifierDefaults, IsVerified, Recompute, EvidenceOf, VerifiedSummary, VerifiedChain, SnapshotHashOf,
         Truthy, Get, Part, ChainField, SummaryField, WithChain;
    var summary := WithVerifierDefaults(c.summary.fields);
    var chain := ChainOf(c);
    var e := EvidenceFor(chain, summary);
    EvidenceIsTruthy(summary, chain.manifest, FieldsOr(chain.metadata));
    var s := SummaryFor(chain, summary, generatedAt);
    var lifecycle := life(s);
    var snapshot := SnapshotHashOf(lifecycle);
    var verified := VerifiedChain(chain, e, Get(s, ApprovalReceiptId), snapshot);
    var r := Recompute(h, verified, true);
    var base := c.(fields := c.fields[LifecycleSummary := lifecycle], summary := Dictionary(s));
    RecomputeKeeps(h, verified, true);
    ChainRoundTrip(base, r);
    var d := EnsureEvidence(h, life, generatedAt, c);
    assert d == WithChain(base, r) && ChainOf(d) == r;
    ChainFieldsDiffer();
    forall l: Link ensures LinkHolds(d, l) && Truthy(Get(d.summary.fields, SummaryField(l))) && LifecycleHolds(d) {
      VerifiedChainLinks(chain, e, Get(s, ApprovalReceiptId), snapshot, l);
      VerifiedSummaryLinks(summary, e, Or(Or(Get(summary, VerifiedAt), Get(chain.verification, VerifiedAt)),
          generatedAt), l);
      PartIsTruthy(e, l);
      assert Get(r.manifest, ChainField(l)) == Get(verified.manifest, ChainField(l));
      assert Get(r.manifest, LifecycleHash) == Get(verified.manifest, LifecycleHash);
    }
    VerifiedChainLinks(chain, e, Get(s, ApprovalReceiptId), snapshot, IdLink);
    assert LinkHolds(d, IdLink) && LifecycleHolds(d);
  }

  lemma PartIsTruthy(e: VerifierEvidence, l: Link)
    requires Truthy(e.proof) && Truthy(e.id) && Truthy(e.key) && Truthy(e.policyId) && Truthy(e.policyHash)
    ensures Truthy(Part(e, l))
  {
  }

  lemma ChainFieldsDiffer()
    ensures forall l: Link :: ChainField(l) !in {OutcomeReceiptHash, ManifestHash, LifecycleHash,
        RecomputedManifestHash}
    ensures forall l: Link :: SummaryField(l) != VerifiedAt
    ensures forall l: Link, k: Link :: SummaryField(l) == SummaryField(k) ==> l == k
  {
  }

  // ---------------------------------------------------------------- both passes are stable

  /** Binding the context a second time changes nothing. */
  lemma BindContextIsIdempotent(c: Case)
    ensures BindContext(BindContext(c)) == BindContext(c)
  {
    if c.summary.Dictionary? {
      hide Or, WithVerifierDefaults;
      var manifest := FieldsOr(c.manifest);
      var existing := if Get(c.summary.fields, ContextBinding).Obj? then Get(c.summary.fields, ContextBinding).fields
          else map[];
      var s := BoundSummary(c.summary.fields, manifest, c.outcome);
      var b := Binding(existing, manifest, c.outcome);
      DefaultsKeep(c.summary.fields[ContextBinding := Obj(b)]);
      assert s[ContextBinding := Obj(b)] == s;
      BindingIsIdempotent(existing, manifest, c.outcome);
    }
  }

  lemma BindingIsIdempotent(existing: Dict, manifest: Dict, outcome: Receipt)
    ensures var b := Binding(existing, manifest, outcome); Binding(b, manifest, outcome) == b
  {
    hide Truthy, OutcomeField;
  }

  lemma DefaultsKeep(s: Dict)
    ensures var d := WithVerifierDefaults(s);
            && WithVerifierDefaults(d) == d
            && (forall f :: f in s ==> f in d && d[f] == s[f])
  {
  }

  lemma PresentEvidenceWins(summary: Dict, manifest: Dict, metadata: Dict, e: VerifierEvidence)
    requires forall l: Link :: Get(summary, SummaryField(l)) == Part(e, l) && Truthy(Part(e, l))
    ensures EvidenceOf(summary, manifest, metadata) == e
  {
    hide Truthy, Get, SyntheticValue, ChainField, SummaryField, Part;
    forall l: Link ensures Evidence(summary, manifest, metadata, l) == Part(e, l) {
      assert Get(summary, SummaryField(l)) == Part(e, l);
    }
    PartsDetermine(EvidenceOf(summary, manifest, metadata), e, summary, manifest, metadata);
  }

  lemma PartsDetermine(d: VerifierEvidence, e: VerifierEvidence, summary: Dict, manifest: Dict, metadata: Dict)
    requires d == EvidenceOf(summary, manifest, metadata)
        && forall l: Link :: Evidence(summary, manifest, metadata, l) == Part(e, l)
    ensures d == e
  {
    hide Evidence;
    assert Part(e, ProofLink) == d.proof && Part(e, IdLink) == d.id && Part(e, KeyLink) == d.key;
    assert Part(e, PolicyIdLink) == d.policyId && Part(e, PolicyHashLink) == d.policyHash;
  }

  lemma WritingTwice(s: Dict, e: VerifierEvidence, v: Value, d: Dict, receiptId: Value, snapshot: Value)
    ensures VerifiedSummary(VerifiedSummary(s, e, v), e, v) == VerifiedSummary(s, e, v)
    ensures var md := VerifiedMetadata(d, e, receiptId)[LifecycleHash := snapshot];
            VerifiedMetadata(md, e, receiptId)[LifecycleHash := snapshot] == md
  {
  }

  lemma WritingManifestTwice(d: Dict, e: VerifierEvidence, snapshot: Value, m: Dict)
    requires SameExcept(m, VerifiedChainFields(d, e)[LifecycleHash := snapshot], {OutcomeReceiptHash, ManifestHash})
    ensures VerifiedChainFields(m, e)[LifecycleHash := snapshot] == m
  {
    var w := VerifiedChainFields(d, e)[LifecycleHash := snapshot];
    forall f | f in {ChainProofHash, ChainVerifierId, ChainVerifierKeyId, ChainVerifierPolicyId,
        ChainVerifierPolicyHash, LifecycleHash}
      ensures f in m && m[f] == w[f]
    {
      assert f in w && Get(m, f) == Get(w, f);
    }
  }

  lemma OrTwice(a: Value, b: Value, c: Value)
    ensures var v := Or(Or(a, b), c); Or(Or(v, b), c) == v
  {
    hide Truthy;
  }

  /** Filling in evidence that is there already changes nothing. */
  lemma FillingIsIdempotent(chain: Chain, summary: Dict, generatedAt: Value, snapshot: Value, later: Chain)
    requires var filled := VerifiedChain(chain, EvidenceFor(chain, summary),
                                         Get(SummaryFor(chain, summary, generatedAt), ApprovalReceiptId), snapshot);
             && SameExcept(later.manifest, filled.manifest, {OutcomeReceiptHash, ManifestHash})
             && later.metadata == filled.metadata
             && SameExcept(later.verification, chain.verification, RECOMPUTED_REPORT)
    ensures var s := SummaryFor(chain, summary, generatedAt);
            && EvidenceFor(later, s) == EvidenceFor(chain, summary)
            && SummaryFor(later, s, generatedAt) == s
            && VerifiedChain(later, EvidenceFor(chain, summary), Get(s, ApprovalReceiptId), snapshot) == later
  {
    hide EvidenceOf, VerifiedSummary, VerifiedChainFields, VerifiedMetadata, Truthy, Or, Get, SameExcept, SummaryField,
         Part;
    var e := EvidenceFor(chain, summary);
    var s := SummaryFor(chain, summary, generatedAt);
    var v := Or(Or(Get(summary, VerifiedAt), Get(chain.verification, VerifiedAt)), generatedAt);
    EvidenceIsTruthy(summary, chain.manifest, FieldsOr(chain.metadata));
    forall l: Link ensures Get(s, SummaryField(l)) == Part(e, l) && Truthy(Part(e, l)) {
      VerifiedSummaryLinks(summary, e, v, l);
      PartIsTruthy(e, l);
    }
    PresentEvidenceWins(s, later.manifest, FieldsOr(later.metadata), e);
    VerifiedSummaryTime(summary, e, v);
    SameAt(later.verification, chain.verification, RECOMPUTED_REPORT, VerifiedAt);
    OrTwice(Get(summary, VerifiedAt), Get(chain.verification, VerifiedAt), generatedAt);
    WritingTwice(summary, e, v, FieldsOr(chain.metadata), Get(s, ApprovalReceiptId), snapshot);
    WritingManifestTwice(chain.manifest, e, snapshot, later.manifest);
  }

  lemma VerifiedSummaryTime(s: Dict, e: VerifierEvidence, verifiedAt: Value)
    ensures Get(VerifiedSummary(s, e, verifiedAt), VerifiedAt) == verifiedAt
    ensures forall f :: f in s ==> f in VerifiedSummary(s, e, verifiedAt)
    ensures WithVerifierDefaults(VerifiedSummary(s, e, verifiedAt)) == VerifiedSummary(s, e, verifiedAt)
    ensures forall manifest :: IsVerified(VerifiedSummary(s, e, verifiedAt), manifest) == IsVerified(s, manifest)
  {
  }

  /** The evidence pass over a well-shaped case is idempotent: on a case it has treated it changes nothing, no hash
      included. */
  lemma EvidencePassIsIdempotent(h: Digest, life: Lifecycle, generatedAt: Value, c: Case)
    requires WellShaped(c)
    ensures var d := EnsureEvidence(h, life, generatedAt, c); EnsureEvidence(h, life, generatedAt, d) == d
  {
    hide WithVerifierDefaults, IsVerified, EnsureUnverified, EnsureVerified;
    var summary := WithVerifierDefaults(c.summary.fields);
    if IsVerified(summary, c.manifest.fields) {
      VerifiedPassIsIdempotent(h, life, generatedAt, c, summary);
    } else {
      DefaultsKeep(c.summary.fields);
      UnverifiedPassIsIdempotent(h, c, summary);
    }
  }

  lemma SameVerdict(summary: Dict, m: Dict, n: Dict, changed: set<Field>)
    requires SameExcept(m, n, changed) && HumanApprovalRequired !in changed
    ensures IsVerified(summary, m) == IsVerified(summary, n)
  {
    hide Truthy;
  }

  lemma UnverifiedPassIsIdempotent(h: Digest, c: Case, summary: Dict)
    requires WellShaped(c) && !IsVerified(summary, c.manifest.fields)
    ensures var d := EnsureUnverified(h, c, summary);
            && WellShaped(d) && d.summary == Dictionary(summary)
            && !IsVerified(summary, d.manifest.fields)
            && EnsureUnverified(h, d, summary) == d
  {
    hide IsVerified, Recompute, ChainOf, WithChain;
    var unverified := UnverifiedChain(ChainOf(c));
    var r := Recompute(h, unverified, false);
    var base := c.(fields := c.fields[LifecycleSummary := Null], summary := Dictionary(summary));
    ChainRoundTrip(base, r);
    RecomputeKeeps(h, unverified, false);
    RecomputeIsIdempotent(h, unverified, false);
    assert LifecycleHash in r.manifest;
    assert UnverifiedChain(r) == r;
    ManifestIsInChain(c, WithChain(base, r));
    SameExceptTrans(r.manifest, unverified.manifest, c.manifest.fields, {OutcomeReceiptHash, ManifestHash},
        {OutcomeReceiptHash, ManifestHash, LifecycleHash});
    SameVerdict(summary, r.manifest, c.manifest.fields, {OutcomeReceiptHash, ManifestHash, LifecycleHash});
    Rewritten(base, r, Null, summary);
  }

  lemma Rewritten(base: Case, chain: Chain, lifecycle: Value, summary: Dict)
    requires LifecycleSummary in base.fields && base.fields[LifecycleSummary] == lifecycle
        && base.summary == Dictionary(summary)
    ensures var d := WithChain(base, chain);
            WithChain(d.(fields := d.fields[LifecycleSummary := lifecycle], summary := Dictionary(summary)), chain) == d
  {
    assert base.fields[LifecycleSummary := lifecycle] == base.fields;
  }

  lemma ManifestIsInChain(c: Case, d: Case)
    requires WellShaped(c) && WellShaped(d)
    ensures ChainOf(c).manifest == c.manifest.fields && ChainOf(d).manifest == d.manifest.fields
  {
  }

  lemma VerifiedPassIsIdempotent(h: Digest, life: Lifecycle, generatedAt: Value, c: Case, summary: Dict)
    requires WellShaped(c) && IsVerified(summary, c.manifest.fields)
    ensures var d := EnsureVerified(h, life, generatedAt, c, summary);
            && WellShaped(d)
            && WithVerifierDefaults(d.summary.fields) == d.summary.fields
            && IsVerified(d.summary.fields, d.manifest.fields)
            && EnsureVerified(h, life, generatedAt, d, d.summary.fields) == d
  {
    hide IsVerified, Recompute, ChainOf, WithChain, EvidenceFor, WithVerifierDefaults, SnapshotHashOf, VerifiedChain,
         Get, VerifiedSummary;
    var chain := ChainOf(c);
    var e := EvidenceFor(chain, summary);
    var s := SummaryFor(chain, summary, generatedAt);
    var lifecycle := life(s);
    var snapshot := SnapshotHashOf(lifecycle);
    var verified := VerifiedChain(chain, e, Get(s, ApprovalReceiptId), snapshot);
    var r := Recompute(h, verified, true);
    var base := c.(fields := c.fields[LifecycleSummary := lifecycle], summary := Dictionary(s));
    ChainRoundTrip(base, r);
    RecomputeKeeps(h, verified, true);
    RecomputeIsIdempotent(h, verified, true);
    VerifiedChainFrame(chain, e, Get(s, ApprovalReceiptId), snapshot);
    ManifestIsInChain(c, WithChain(base, r));
    SameExceptTrans(r.manifest, verified.manifest, chain.manifest, {OutcomeReceiptHash, ManifestHash}, FILLED);
    FillingIsIdempotent(chain, summary, generatedAt, snapshot, r);
    SameVerdict(s, r.manifest, chain.manifest, FILLED);
    VerifiedSummaryTime(summary, e, Or(Or(Get(summary, VerifiedAt), Get(chain.verification, VerifiedAt)), generatedAt));
    Rewritten(base, r, lifecycle, s);
  }

  const FILLED: set<Field> := {OutcomeReceiptHash, ManifestHash, LifecycleHash, ChainProofHash, ChainVerifierId,
      ChainVerifierKeyId,
    ChainVerifierPolicyId, ChainVerifierPolicyHash}

  lemma VerifiedChainFrame(chain: Chain, e: VerifierEvidence, receiptId: Value, snapshot: Value)
    ensures var v := VerifiedChain(chain, e, receiptId, snapshot);
            && SameExcept(v.manifest, chain.manifest, FILLED)
            && v.verification == chain.verification
  {
  }

  // ---------------------------------------------------------------- tampering

  datatype LifecycleTamper = OutcomeMissing | ManifestMissing | HashMismatch

  datatype VerifierTamper = IdMismatch | KeyMismatch | PolicyHashMismatch | ProofMismatch | VerifiedAtMismatch

  const LIFECYCLE_TAMPERS: seq<LifecycleTamper> := [OutcomeMissing, ManifestMissing, HashMismatch]

  const VERIFIER_TAMPERS: seq<VerifierTamper> := [IdMismatch, KeyMismatch, PolicyHashMismatch, ProofMismatch,
      VerifiedAtMismatch]

  /** What a tamper case is called and how its failure is reported. */
  datatype Label = Label(suffix: string, reason: string, interpretation: string, affected: string)

  const LIFECYCLE_FIELD_NAME := "human_approval_verifier_lifecycle_snapshot_hash"

  function LifecycleLabel(t: LifecycleTamper): Label {
    match t
    case OutcomeMissing =>
      Label("lifecycle_snapshot_manifest_hash_outcome_missing",
            "evidence_chain_outcome_lifecycle_snapshot_hash_missing",
            "Outcome metadata is missing the lifecycle snapshot hash while the manifest still carries it.",
            LIFECYCLE_FIELD_NAME)
    case ManifestMissing =>
      Label("lifecycle_snapshot_outcome_hash_manifest_missing",
            "evidence_chain_manifest_lifecycle_snapshot_hash_missing",
            "Manifest is missing the lifecycle snapshot hash while outcome metadata still carries it.",
            LIFECYCLE_FIELD_NAME)
    case HashMismatch =>
      Label("lifecycle_snapshot_hash_mismatch",
            "evidence_chain_lifecycle_snapshot_hash_mismatch",
            "Manifest and outcome metadata carry different lifecycle snapshot hash values.",
            LIFECYCLE_FIELD_NAME)
  }

  function VerifierLabel(t: VerifierTamper): Label {
    match t
    case IdMismatch =>
      Label("verifier_id_mismatch",
            "reviewer_packet_verifier_id_mismatch",
            "Human approval summary carries a different verifier identity than the manifest and outcome metadata.",
            "human_approval_verifier_id")
    case KeyMismatch =>
      Label("verifier_key_id_mismatch",
            "reviewer_packet_verifier_key_id_mismatch",
            "Human approval summary carries a different verifier key identity than the manifest and outcome metadata.",
            "human_approval_verifier_key_id")
    case PolicyHashMismatch =>
      Label("verifier_policy_hash_mismatch",
            "reviewer_packet_verifier_policy_hash_mismatch",
            "Human approval summary carries a different verifier policy hash than the manifest and outcome metadata.",
            "human_approval_verifier_policy_hash")
    case ProofMismatch =>
      Label("verification_proof_hash_mismatch",
            "reviewer_packet_verification_proof_hash_mismatch",
            "Human approval summary carries a different proof hash than the manifest and outcome metadata.",
            "verification_proof_hash")
    case VerifiedAtMismatch =>
      Label("verified_at_mismatch",
            "reviewer_packet_verified_at_mismatch",
            "Human approval summary carries a different verified_at timestamp than the lifecycle and evidence-chain "
            + "verification summaries.",
            "verified_at")
  }

  function TamperedField(t: VerifierTamper): Field {
    match t
    case IdMismatch => VerifierId
    case KeyMismatch => VerifierKeyId
    case PolicyHashMismatch => VerifierPolicyHash
    case ProofMismatch => VerificationProofHash
    case VerifiedAtMismatch => VerifiedAt
  }

  function Repeat(c: char, n: nat): string { seq(n, _ => c) }

  /** `_tampered_value`. */
  function TamperedValue(t: VerifierTamper): Value {
    match t
    case VerifiedAtMismatch => Str("2027-01-01T00:00:00+00:00")
    case IdMismatch => Str("tampered-human-approval-verifier-v1")
    case KeyMismatch => Str("tampered-local-demo-verifier-key")
    case _ => Str(Repeat('3', 64))
  }

  const MISMATCHED_LIFECYCLE_HASH := Str(Repeat('2', 64))

  const TAMPER_NOTE := Str(
    "local/offline synthetic tamper regression fixture only; no runtime admissibility change or live verifier "
    + "integration")

  function Relabel(fields: Dict, tag: Label): Dict {
    var caseId := Get(fields, CaseId);
    fields[CaseId := if caseId.Str? then Str(caseId.text + "_" + tag.suffix) else caseId]
          [ReviewerInterpretation := Str(tag.interpretation)][BoundaryNote := TAMPER_NOTE]
  }

  /** `_commit_safety_fields`. */
  function CommitSafety(fields: Dict, reason: string): Dict {
    var d := SetDefault(fields[ExpectedOutcome := Str("block")][ActualOutcome := Str("block")]
                              [RuntimeRecommendedOutcome := Str("block")][Passed := Bool(true)], FailureReasons,
                                  Arr([]));
    d[FailureReasons := AppendOnce(d[FailureReasons], Str(reason))]
  }

  /** The part that `_mark_lifecycle_continuity_failure` and `_mark_verifier_continuity_failure` share. */
  function MarkFailure(v: Dict, tag: Label): Dict {
    v[IsValid := Bool(false)][VerificationStatus := Str("failed")][ManifestHashMatches := Bool(true)]
     [FailureReasons := Arr([Str(tag.reason)])][MissingLinks := Arr([])][MismatchedLinks := Arr([Str(tag.affected)])]
  }

  function WithoutValue(items: seq<Value>, x: Value): seq<Value> {
    if items == [] then []
    else if items[0] == x then WithoutValue(items[1..], x)
    else [items[0]] + WithoutValue(items[1..], x)
  }

  function MarkLifecycleFailure(v: Dict, tag: Label): Dict {
    var d := MarkFailure(v, tag)[LifecycleContinuityVerified := Bool(false)]
                                  [LifecycleContinuityFailureReasons := Arr([Str(tag.reason)])];
    if Get(d, VerifiedLinks).Arr?
    then d[VerifiedLinks := Arr(WithoutValue(d[VerifiedLinks].items, Str(LIFECYCLE_FIELD_NAME + "_continuity")))] else d
  }

  function TamperMetadata(metadata: Dict, t: LifecycleTamper): Dict {
    match t
    case OutcomeMissing => metadata - {LifecycleHash}
    case ManifestMissing => metadata
    case HashMismatch => metadata[LifecycleHash := MISMATCHED_LIFECYCLE_HASH]
  }

  function TamperManifest(manifest: Dict, t: LifecycleTamper): Dict {
    if t.ManifestMissing? then manifest[LifecycleHash := Null] else manifest
  }

  function LifecycleBroken(chain: Chain, t: LifecycleTamper): Chain {
    chain.(manifest := TamperManifest(chain.manifest, t),
           metadata := Dictionary(TamperMetadata(FieldsOr(chain.metadata), t)),
           verification := MarkLifecycleFailure(chain.verification, LifecycleLabel(t)))
  }

  /** `_tamper_lifecycle_hash_fields`: nothing without manifest and outcome, and no new hashes without a verification
      summary to record them in. */
  function ApplyLifecycleTamper(h: Digest, c: Case, t: LifecycleTamper): Case {
    if !c.manifest.Dictionary? || !c.outcome.Outcome? then c
    else
      var broken := LifecycleBroken(ChainOf(c), t);
      WithChain(c.(fields := CommitSafety(c.fields, LifecycleLabel(t).reason)),
                if c.verification.Dictionary? then Recompute(h, broken, true) else broken)
  }

  function VerifierMarked(c: Case, t: VerifierTamper): Chain {
    var chain := ChainOf(c);
    if c.verification.Dictionary? then chain.(verification := MarkFailure(chain.verification, VerifierLabel(t)))
        else chain
  }

  /** `_tamper_verifier_continuity_fields`. */
  function ApplyVerifierTamper(h: Digest, c: Case, t: VerifierTamper): Case {
    if !c.summary.Dictionary? then c
    else
      WithChain(c.(fields := CommitSafety(c.fields, VerifierLabel(t).reason),
                   summary := Dictionary(c.summary.fields[TamperedField(t) := TamperedValue(t)])),
                Recompute(h, VerifierMarked(c, t), !t.ProofMismatch?))
  }

  function LifecycleTampered(h: Digest, source: Case, t: LifecycleTamper): Case {
    ApplyLifecycleTamper(h, source.(fields := Relabel(source.fields, LifecycleLabel(t))), t)
  }

  function VerifierTampered(h: Digest, source: Case, t: VerifierTamper): Case {
    ApplyVerifierTamper(h, source.(fields := Relabel(source.fields, VerifierLabel(t))), t)
  }

  function Labelled(fields: Dict, tag: Label): Dict { CommitSafety(Relabel(fields, tag), tag.reason) }

  /** On a well-shaped case both tampers are a change to the labels, the summary and the chain. */
  lemma TamperedParts(h: Digest, source: Case, lt: LifecycleTamper, vt: VerifierTamper)
    requires WellShaped(source)
    ensures var d := LifecycleTampered(h, source, lt);
            && WellShaped(d) && d.fields == Labelled(source.fields, LifecycleLabel(lt)) && d.summary == source.summary
            && ChainOf(d) == Recompute(h, LifecycleBroken(ChainOf(source), lt), true)
    ensures var d := VerifierTampered(h, source, vt);
            && WellShaped(d) && d.fields == Labelled(source.fields, VerifierLabel(vt))
            && d.summary == Dictionary(source.summary.fields[TamperedField(vt) := TamperedValue(vt)])
            && ChainOf(d) == Recompute(h, VerifierMarked(source, vt), !vt.ProofMismatch?)
  {
    hide Recompute, Relabel, CommitSafety, LifecycleBroken, MarkFailure, LifecycleLabel, VerifierLabel, TamperedValue,
         TamperedField;
    var relabelled := source.(fields := Relabel(source.fields, LifecycleLabel(lt)));
    assert ChainOf(relabelled) == ChainOf(source);
    ChainRoundTrip(relabelled.(fields := Labelled(source.fields, LifecycleLabel(lt))),
                   Recompute(h, LifecycleBroken(ChainOf(source), lt), true));
    ChainRoundTrip(source.(fields := Labelled(source.fields, VerifierLabel(vt)),
                           summary := Dictionary(source.summary.fields[TamperedField(vt) := TamperedValue(vt)])),
                   Recompute(h, VerifierMarked(source, vt), !vt.ProofMismatch?));
    hide ChainOf, WithChain;
  }

  lemma TamperedShape(h: Digest, source: Case, lt: LifecycleTamper, vt: VerifierTamper)
    ensures SameShape(source, LifecycleTampered(h, source, lt)) && SameShape(source, VerifierTampered(h, source, vt))
  {
    hide Recompute, Relabel, CommitSafety, LifecycleBroken, MarkFailure, VerifierMarked, LifecycleLabel, VerifierLabel,
         TamperedValue, TamperedField;
  }

  lemma TamperedIsConsistent(h: Digest, source: Case, lt: LifecycleTamper, vt: VerifierTamper)
    ensures WellShaped(source) ==> CaseConsistent(h, LifecycleTampered(h, source, lt))
    ensures WellShaped(source) ==> CaseConsistent(h, VerifierTampered(h, source, vt))
  {
    hide Recompute, LifecycleTampered, VerifierTampered, LifecycleBroken, VerifierMarked, Consistent, ChainOf;
    RecomputeIsConsistent(h, LifecycleBroken(ChainOf(source), lt), true);
    RecomputeIsConsistent(h, VerifierMarked(source, vt), !vt.ProofMismatch?);
    if WellShaped(source) { TamperedParts(h, source, lt, vt); }
  }

  // ---------------------------------------------------------------- what a tamper case shows

  const LABEL_FIELDS: set<Field> := {
    CaseId, ReviewerInterpretation, BoundaryNote, ExpectedOutcome, ActualOutcome, RuntimeRecommendedOutcome, Passed,
        FailureReasons}

  const REPORT_FIELDS: set<Field> := {
    IsValid, VerificationStatus, ManifestHashMatches, FailureReasons, MissingLinks, MismatchedLinks, VerifiedLinks,
    RecomputedManifestHash, LifecycleContinuityVerified, LifecycleContinuityFailureReasons}

  predicate Blocks(fields: Dict) {
    && Get(fields, ExpectedOutcome) == Str("block") && Get(fields, ActualOutcome) == Str("block")
    && Get(fields, RuntimeRecommendedOutcome) == Str("block") && Get(fields, Passed) == Bool(true)
  }

  predicate Reports(c: Case, tag: Label) {
    && Get(FieldsOr(c.verification), IsValid) == Bool(false)
    && Get(FieldsOr(c.verification), FailureReasons) == Arr([Str(tag.reason)])
    && Get(FieldsOr(c.verification), MismatchedLinks) == Arr([Str(tag.affected)])
    && (Get(c.fields, FailureReasons).Arr? ==> Str(tag.reason) in Get(c.fields, FailureReasons).items)
  }

  /** A lifecycle tamper case differs from its source in labels, failure reporting, derived hashes and the lifecycle
      hash on one side, and in nothing else. */
  lemma LifecycleTamperFrame(h: Digest, source: Case, t: LifecycleTamper)
    requires WellShaped(source)
    ensures var d := LifecycleTampered(h, source, t);
            && WellShaped(d)
            && SameExcept(d.fields, source.fields, LABEL_FIELDS)
            && d.summary == source.summary
            && SameExcept(d.manifest.fields, source.manifest.fields, ManifestChanges(t))
            && SameExcept(d.outcome.fields, source.outcome.fields, {OutcomeHash})
            && SameExcept(MetadataOf(d), MetadataOf(source), MetadataChanges(t))
            && SameExcept(d.verification.fields, source.verification.fields, REPORT_FIELDS)
            && Get(d.manifest.fields, LifecycleHash)
                == (if t.ManifestMissing? then Null else Get(source.manifest.fields, LifecycleHash))
            && Get(MetadataOf(d), LifecycleHash) ==
                 (if t.ManifestMissing? then Get(MetadataOf(source), LifecycleHash) else LifecycleTamperValue(t))
            && Blocks(d.fields) && Reports(d, LifecycleLabel(t))
  {
    hide LifecycleTampered, Recompute, LifecycleBroken, Labelled, LifecycleLabel, VerifierTampered, VerifierMarked,
         VerifierLabel, SameExcept, Get, Blocks, LifecycleTamperValue, TamperedField, TamperedValue;
    var d := LifecycleTampered(h, source, t);
    var chain := ChainOf(source);
    var broken := LifecycleBroken(chain, t);
    var r := Recompute(h, broken, true);
    TamperedParts(h, source, t, IdMismatch);
    RecomputeKeeps(h, broken, true);
    CaseLabelFrame(source.fields, LifecycleLabel(t));
    LifecycleBrokenFrame(chain, t);
    assert Chain(d.manifest.fields, d.outcome.fields, d.outcome.metadata, d.verification.fields) == r;
    SameExceptTrans(r.manifest, broken.manifest, chain.manifest, {OutcomeReceiptHash, ManifestHash},
        ManifestChanges(t));
    SameExceptTrans(r.verification, broken.verification, chain.verification, RECOMPUTED_REPORT, REPORT_FIELDS);
    SameAt(r.manifest, broken.manifest, {OutcomeReceiptHash, ManifestHash}, LifecycleHash);
    SameAt(r.verification, broken.verification, RECOMPUTED_REPORT, IsValid);
    SameAt(r.verification, broken.verification, RECOMPUTED_REPORT, FailureReasons);
    SameAt(r.verification, broken.verification, RECOMPUTED_REPORT, MismatchedLinks);
  }

  function ManifestChanges(t: LifecycleTamper): set<Field> {
    {OutcomeReceiptHash, ManifestHash} + if t.ManifestMissing? then {LifecycleHash} else {}
  }

  function MetadataChanges(t: LifecycleTamper): set<Field> { if t.ManifestMissing? then {} else {LifecycleHash} }

  /** What the lifecycle hash of the source must not be for a tamper to show. */
  function LifecycleTamperValue(t: LifecycleTamper): Value {
    if t.HashMismatch? then MISMATCHED_LIFECYCLE_HASH else Null
  }

  lemma LifecycleBrokenFrame(chain: Chain, t: LifecycleTamper)
    ensures var b := LifecycleBroken(chain, t);
            && b.outcome == chain.outcome && b.metadata.Dictionary?
            && SameExcept(b.manifest, chain.manifest, ManifestChanges(t))
            && SameExcept(b.metadata.fields, FieldsOr(chain.metadata), MetadataChanges(t))
            && SameExcept(b.verification, chain.verification, REPORT_FIELDS)
            && Get(b.manifest, LifecycleHash) == (if t.ManifestMissing? then Null
                else Get(chain.manifest, LifecycleHash))
            && Get(b.metadata.fields, LifecycleHash) ==
                 (if t.ManifestMissing? then Get(FieldsOr(chain.metadata), LifecycleHash) else LifecycleTamperValue(t))
            && Get(b.verification, IsValid) == Bool(false)
            && Get(b.verification, FailureReasons) == Arr([Str(LifecycleLabel(t).reason)])
            && Get(b.verification, MismatchedLinks) == Arr([Str(LifecycleLabel(t).affected)])
  {
    hide LifecycleLabel, LifecycleTamperValue, MarkLifecycleFailure, TamperManifest, TamperMetadata, SameExcept, Get,
         ManifestChanges, MetadataChanges;
    MarkLifecycleFrame(chain.verification, LifecycleLabel(t));
    TamperManifestFrame(chain.manifest, t);
    TamperMetadataFrame(FieldsOr(chain.metadata), t);
  }

  lemma TamperManifestFrame(manifest: Dict, t: LifecycleTamper)
    ensures SameExcept(TamperManifest(manifest, t), manifest, ManifestChanges(t))
    ensures Get(TamperManifest(manifest, t), LifecycleHash) == if t.ManifestMissing? then Null
        else Get(manifest, LifecycleHash)
  {
  }

  lemma TamperMetadataFrame(metadata: Dict, t: LifecycleTamper)
    ensures SameExcept(TamperMetadata(metadata, t), metadata, MetadataChanges(t))
    ensures Get(TamperMetadata(metadata, t), LifecycleHash) ==
            if t.ManifestMissing? then Get(metadata, LifecycleHash) else LifecycleTamperValue(t)
  {
    hide MISMATCHED_LIFECYCLE_HASH;
  }

  lemma CaseLabelFrame(fields: Dict, tag: Label)
    ensures var d := Labelled(fields, tag);
            && SameExcept(d, fields, LABEL_FIELDS) && Blocks(d)
            && (Get(d, FailureReasons).Arr? ==> Str(tag.reason) in Get(d, FailureReasons).items)
  {
  }

  lemma MarkLifecycleFrame(v: Dict, tag: Label)
    ensures var d := MarkLifecycleFailure(v, tag);
            && SameExcept(d, v, REPORT_FIELDS)
            && Get(d, IsValid) == Bool(false)
            && Get(d, FailureReasons) == Arr([Str(tag.reason)])
            && Get(d, MismatchedLinks) == Arr([Str(tag.affected)])
  {
    hide WithoutValue;
  }

  /** A verifier tamper case differs from its source in labels, failure reporting, derived hashes and the tampered
      field of the summary, and in nothing else. */
  lemma VerifierTamperFrame(h: Digest, source: Case, t: VerifierTamper)
    requires WellShaped(source)
    ensures var d := VerifierTampered(h, source, t);
            && WellShaped(d)
            && SameExcept(d.fields, source.fields, LABEL_FIELDS)
            && SameExcept(d.summary.fields, source.summary.fields, {TamperedField(t)})
            && Get(d.summary.fields, TamperedField(t)) == TamperedValue(t)
            && SameExcept(d.manifest.fields, source.manifest.fields, {OutcomeReceiptHash, ManifestHash})
            && SameExcept(d.outcome.fields, source.outcome.fields, {OutcomeHash})
            && d.outcome.metadata == source.outcome.metadata
            && SameExcept(d.verification.fields, source.verification.fields, REPORT_FIELDS)
            && Blocks(d.fields) && Reports(d, VerifierLabel(t))
  {
    hide LifecycleTampered, Recompute, LifecycleBroken, Labelled, LifecycleLabel, VerifierTampered, VerifierLabel,
         MarkFailure, TamperedValue, TamperedField, Blocks, SameExcept, Get;
    var d := VerifierTampered(h, source, t);
    var marked := VerifierMarked(source, t);
    var r := Recompute(h, marked, !t.ProofMismatch?);
    TamperedParts(h, source, OutcomeMissing, t);
    RecomputeKeeps(h, marked, !t.ProofMismatch?);
    CaseLabelFrame(source.fields, VerifierLabel(t));
    MarkFrame(ChainOf(source).verification, VerifierLabel(t));
    UpdateFrame(source.summary.fields, TamperedField(t), TamperedValue(t));
    assert Chain(d.manifest.fields, d.outcome.fields, d.outcome.metadata, d.verification.fields) == r;
    SameExceptTrans(r.verification, marked.verification, source.verification.fields, RECOMPUTED_REPORT, REPORT_FIELDS);
    SameAt(r.verification, marked.verification, RECOMPUTED_REPORT, IsValid);
    SameAt(r.verification, marked.verification, RECOMPUTED_REPORT, FailureReasons);
    SameAt(r.verification, marked.verification, RECOMPUTED_REPORT, MismatchedLinks);
  }

  lemma MarkFrame(v: Dict, tag: Label)
    ensures var d := MarkFailure(v, tag);
            && SameExcept(d, v, REPORT_FIELDS)
            && Get(d, IsValid) == Bool(false)
            && Get(d, FailureReasons) == Arr([Str(tag.reason)])
            && Get(d, MismatchedLinks) == Arr([Str(tag.affected)])
  {
  }

  /** The link a verifier tamper is aimed at; the timestamp has no counterpart in the chain. */
  function TargetLink(t: VerifierTamper): Option<Link> {
    match t
    case IdMismatch => Some(IdLink)
    case KeyMismatch => Some(KeyLink)
    case PolicyHashMismatch => Some(PolicyHashLink)
    case ProofMismatch => Some(ProofLink)
    case VerifiedAtMismatch => None
  }

  /** A verifier tamper of a coherent case breaks exactly the link it is aimed at, unless the case carried the
      tamper value already; a timestamp tamper breaks no link and changes the timestamp under the same condition. */
  lemma VerifierTamperBreaksOneLink(h: Digest, source: Case, t: VerifierTamper)
    requires WellShaped(source) && (forall l: Link :: LinkHolds(source, l)) && LifecycleHolds(source)
    ensures var d := VerifierTampered(h, source, t);
            && (forall l: Link :: TargetLink(t) != Some(l) ==> LinkHolds(d, l))
            && LifecycleHolds(d)
            && (TargetLink(t).Some? ==>
                  (!LinkHolds(d, TargetLink(t).value) <==>
                      Get(FieldsOr(source.summary), TamperedField(t)) != TamperedValue(t)))
            && (Get(FieldsOr(d.summary), TamperedField(t)) != Get(FieldsOr(source.summary), TamperedField(t)) <==>
                  Get(FieldsOr(source.summary), TamperedField(t)) != TamperedValue(t))
  {
    hide VerifierTampered, TamperedValue, Reports, Blocks, ChainField, SummaryField, VerifierLabel, Get, SameExcept,
         TargetLink, TamperedField;
    VerifierTamperFrame(h, source, t);
    ChainFieldsDiffer();
    TargetIsTampered(t);
    var d := VerifierTampered(h, source, t);
    assert MetadataOf(d) == MetadataOf(source);
    forall l: Link
      ensures TargetLink(t) != Some(l) ==> LinkHolds(d, l)
      ensures TargetLink(t) == Some(l) ==> (LinkHolds(d, l) <==>
          Get(source.summary.fields, TamperedField(t)) == TamperedValue(t))
    {
      assert LinkHolds(source, l);
      SameAt(d.manifest.fields, source.manifest.fields, {OutcomeReceiptHash, ManifestHash}, ChainField(l));
      if SummaryField(l) != TamperedField(t) {
        SameAt(d.summary.fields, source.summary.fields, {TamperedField(t)}, SummaryField(l));
      }
    }
    SameAt(d.manifest.fields, source.manifest.fields, {OutcomeReceiptHash, ManifestHash}, LifecycleHash);
  }

  lemma TargetIsTampered(t: VerifierTamper)
    ensures forall l: Link :: TargetLink(t) == Some(l) <==> SummaryField(l) == TamperedField(t)
  {
  }

  /** A lifecycle tamper of a coherent case breaks the lifecycle hash, unless the source carried the tamper value
      already, and none of the verifier links. */
  lemma LifecycleTamperBreaksOneLink(h: Digest, source: Case, t: LifecycleTamper)
    requires WellShaped(source) && (forall l: Link :: LinkHolds(source, l)) && LifecycleHolds(source)
    ensures var d := LifecycleTampered(h, source, t);
            && (forall l: Link :: LinkHolds(d, l))
            && (!LifecycleHolds(d) <==> Get(source.manifest.fields, LifecycleHash) != LifecycleTamperValue(t))
  {
    hide LifecycleTampered, Reports, Blocks, LifecycleLabel, ChainField, SummaryField, LifecycleTamperValue, Get,
         SameExcept;
    LifecycleTamperFrame(h, source, t);
    ChainFieldsDiffer();
    LifecycleTamperValueNull(t);
    var d := LifecycleTampered(h, source, t);
    forall l: Link ensures LinkHolds(d, l) {
      assert LinkHolds(source, l);
      SameAt(d.manifest.fields, source.manifest.fields, ManifestChanges(t), ChainField(l));
      SameAt(MetadataOf(d), MetadataOf(source), MetadataChanges(t), ChainField(l));
    }
  }

  lemma LifecycleTamperValueNull(t: LifecycleTamper)
    ensures t.ManifestMissing? ==> LifecycleTamperValue(t) == Null
  {
  }

  // ---------------------------------------------------------------- packets

  datatype Packet = Packet(fields: Dict, hasCases: bool, items: seq<Item>)

  const SOURCE_CASE_ID := Str("valid_authority_and_approval")

  function OneCase(f: Case -> Case, item: Item): Item {
    match item
    case CaseItem(c) => CaseItem(f(c))
    case OtherItem(v) => OtherItem(v)
  }

  function EachCase(f: Case -> Case, items: seq<Item>): seq<Item> {
    seq(|items|, k requires 0 <= k < |items| => OneCase(f, items[k]))
  }

  /** Treating one more entry of a list of which the first `i` are treated. */
  lemma OneMoreCase(f: Case -> Case, items: seq<Item>, i: nat)
    requires i <= |items|
    ensures |EachCase(f, items)| == |items|
    ensures i < |items| ==> (var done := EachCase(f, items)[..i] + items[i..];
                             && done[i] == items[i]
                             && done[i := OneCase(f, items[i])] == EachCase(f, items)[..i + 1] + items[i + 1..])
    ensures EachCase(f, items)[..0] + items[0..] == items
    ensures EachCase(f, items)[..|items|] + items[|items|..] == EachCase(f, items)
  {
  }

  predicate IsSource(i: Item) { i.CaseItem? && Get(i.c.fields, CaseId) == SOURCE_CASE_ID }

  function FindSource(items: seq<Item>): Option<Case> {
    if items == [] then None else if IsSource(items[0]) then Some(items[0].c) else FindSource(items[1..])
  }

  function LifecycleCases(h: Digest, source: Case): seq<Item> {
    seq(|LIFECYCLE_TAMPERS|, k requires 0 <= k < |LIFECYCLE_TAMPERS| =>
      CaseItem(LifecycleTampered(h, source, LIFECYCLE_TAMPERS[k])))
  }

  function VerifierCases(h: Digest, source: Case): seq<Item> {
    seq(|VERIFIER_TAMPERS|, k requires 0 <= k < |VERIFIER_TAMPERS| =>
      CaseItem(VerifierTampered(h, source, VERIFIER_TAMPERS[k])))
  }

  lemma CasesUpTo(h: Digest, source: Case, i: nat)
    ensures |LifecycleCases(h, source)| == |LIFECYCLE_TAMPERS| == 3
        && |VerifierCases(h, source)| == |VERIFIER_TAMPERS| == 5
    ensures i < 3 ==> (var all := LifecycleCases(h, source);
                       all[..i + 1] == all[..i] + [CaseItem(LifecycleTampered(h, source, LIFECYCLE_TAMPERS[i]))])
    ensures i < 5 ==> (var all := VerifierCases(h, source);
                       all[..i + 1] == all[..i] + [CaseItem(VerifierTampered(h, source, VERIFIER_TAMPERS[i]))])
  {
    hide LifecycleTampered, VerifierTampered;
  }

  function AppendLifecycleCases(h: Digest, items: seq<Item>): seq<Item> {
    match FindSource(items)
    case None => items
    case Some(source) => items + LifecycleCases(h, source)
  }

  function AppendVerifierCases(h: Digest, items: seq<Item>): seq<Item> {
    match FindSource(items)
    case None => items
    case Some(source) => items + VerifierCases(h, source)
  }

  /** The other entries the packet gets before it is hashed. */
  datatype Publication = Publication(issuedAt: Value, summary: Value, artifacts: Value, keyProvenance: Value,
      notes: Value)

  const BOUNDARY_NOTE := Str(
    "local/offline synthetic reviewer evidence only; no /v1/decide call, runtime admissibility change, live service "
    + "integration, legitimacy determination, or compliance certification")

  function Published(fields: Dict, p: Publication): Dict {
    var d := fields[DemoId := Str("evaluation_governance_offline_chain_reviewer_packet_v1")][GeneratedAt := p.issuedAt]
                   [Title := Str("Evaluation Governance Offline Chain Reviewer Evidence Packet")]
                   [SummaryText := p.summary]
                   [BoundaryNote := BOUNDARY_NOTE][LocalOfflineOnly := Bool(true)];
    SetDefault(d, GovernanceArtifacts, p.artifacts)[KeyProvenance := p.keyProvenance][ReviewerNotes := p.notes]
  }

  function ItemValues(items: seq<Item>): seq<Value> { seq(|items|, k requires 0 <= k < |items| => ItemValue(items[k])) }

  function PacketDict(p: Packet): Dict { if p.hasCases then p.fields[Cases := Arr(ItemValues(p.items))] else p.fields }

  /** `_packet_hash`. */
  function PacketDigest(h: Digest, p: Packet): Value { Str(h(Obj(PacketDict(p) - {PacketHash}))) }

  function EvidencePass(h: Digest, life: Lifecycle, generatedAt: Value): Case -> Case {
    c => EnsureEvidence(h, life, generatedAt, c)
  }

  function PreparedItems(h: Digest, life: Lifecycle, generatedAt: Value, items: seq<Item>): seq<Item> {
    EachCase(EvidencePass(h, life, generatedAt), EachCase(BindContext, items))
  }

  function FinalItems(h: Digest, life: Lifecycle, template: Packet): seq<Item> {
    if template.hasCases
    then AppendVerifierCases(h, AppendLifecycleCases(h,
        PreparedItems(h, life, Get(template.fields, GeneratedAt), template.items)))
    else template.items
  }

  /** `generate_reviewer_evidence_packet_from_chain`, from the sanitised template to the hashed packet. */
  function Generated(h: Digest, life: Lifecycle, template: Packet, p: Publication): Packet {
    var unhashed := Packet(Published(template.fields, p), template.hasCases, FinalItems(h, life, template));
    unhashed.(fields := unhashed.fields[PacketHash := PacketDigest(h, unhashed)])
  }

  /** The packets are the same but for what is stored as the packet's hash. */
  ghost predicate SameButHash(p: Packet, q: Packet) {
    p.hasCases == q.hasCases && p.items == q.items && SameExcept(p.fields, q.fields, {PacketHash})
  }

  /** The digest does not see the stored hash: a reader can compute it again from the packet as received. */
  lemma PacketDigestIgnoresStoredHash(h: Digest, p: Packet, q: Packet)
    requires SameButHash(p, q)
    ensures PacketDigest(h, p) == PacketDigest(h, q)
  {
    hide ItemValues;
    var d, e := PacketDict(p) - {PacketHash}, PacketDict(q) - {PacketHash};
    forall f ensures f in d <==> f in e {
      assert f != PacketHash ==> (f in p.fields <==> f in q.fields);
    }
    forall f | f in d ensures d[f] == e[f] {
      assert Get(p.fields, f) == Get(q.fields, f);
    }
    assert d == e;
  }

  /** The packet hash covers the packet that is returned. */
  lemma PacketHashCoversPacket(h: Digest, life: Lifecycle, template: Packet, p: Publication)
    ensures Get(Generated(h, life, template, p).fields, PacketHash) == PacketDigest(h, Generated(h, life, template, p))
  {
    hide Published, FinalItems, PacketDigest;
    var unhashed := Packet(Published(template.fields, p), template.hasCases, FinalItems(h, life, template));
    PacketDigestIgnoresStoredHash(h, Generated(h, life, template, p), unhashed);
  }

  lemma {:induction false} FindSourceMember(items: seq<Item>)
    ensures FindSource(items).Some? ==> CaseItem(FindSource(items).value) in items
    ensures FindSource(items).Some? <==> exists k :: 0 <= k < |items| && IsSource(items[k])
  {
    if items != [] && !IsSource(items[0]) {
      FindSourceMember(items[1..]);
      assert forall k :: 0 < k < |items| ==> items[k] == items[1..][k - 1];
    }
  }

  lemma {:induction false} FindSourceAt(items: seq<Item>, k: nat)
    requires k <= |items| && (forall j :: 0 <= j < k ==> !IsSource(items[j])) && (k < |items| ==> IsSource(items[k]))
    ensures FindSource(items) == if k < |items| then Some(items[k].c) else None
  {
    if items != [] && k > 0 {
      assert forall j :: 0 <= j < k - 1 ==> items[1..][j] == items[j + 1];
      FindSourceAt(items[1..], k - 1);
    }
  }

  lemma {:induction false} FindSourceAppend(items: seq<Item>, more: seq<Item>)
    requires FindSource(items).Some?
    ensures FindSource(items + more) == FindSource(items)
  {
    if !IsSource(items[0]) {
      assert (items + more)[1..] == items[1..] + more;
      FindSourceAppend(items[1..], more);
    }
  }

  /** Both passes tamper the same source case.  They leave every case before them as it is and add exactly eight, or
      none if there is no source. */
  lemma AppendedCases(h: Digest, items: seq<Item>)
    ensures var all := AppendVerifierCases(h, AppendLifecycleCases(h, items));
            && items <= all
            && (FindSource(items).None? ==> all == items)
            && (FindSource(items).Some? ==>
                  var source := FindSource(items).value;
                  && CaseItem(source) in items
                  && |all| == |items| + 8
                  && all[|items|..] == LifecycleCases(h, source) + VerifierCases(h, source))
  {
    FindSourceMember(items);
    hide LifecycleTampered, VerifierTampered, FindSource;
    if FindSource(items).Some? {
      var source := FindSource(items).value;
      FindSourceAppend(items, LifecycleCases(h, source));
      assert |LifecycleCases(h, source)| == 3 && |VerifierCases(h, source)| == 5;
    }
  }

  lemma PreparedAreConsistent(h: Digest, life: Lifecycle, generatedAt: Value, items: seq<Item>)
    ensures var prepared := PreparedItems(h, life, generatedAt, items);
            forall k :: 0 <= k < |prepared| && prepared[k].CaseItem? && WellShaped(prepared[k].c) ==>
                CaseConsistent(h, prepared[k].c)
  {
    hide EnsureEvidence, BindContext, CaseConsistent, WellShaped;
    var prepared := PreparedItems(h, life, generatedAt, items);
    var bound := EachCase(BindContext, items);
    forall k | 0 <= k < |prepared| && prepared[k].CaseItem? && WellShaped(prepared[k].c)
        ensures CaseConsistent(h, prepared[k].c) {
      EnsureIsConsistent(h, life, generatedAt, bound[k].c);
      ShapeDecides(bound[k].c, prepared[k].c);
    }
  }

  lemma ShapeDecides(c: Case, d: Case)
    requires SameShape(c, d)
    ensures WellShaped(c) == WellShaped(d)
  {
  }

  /** In the generated packet every well-shaped case, original or tampered, is hash-consistent. */
  lemma GeneratedPacketIsConsistent(h: Digest, life: Lifecycle, template: Packet, p: Publication)
    requires template.hasCases
    ensures forall k :: 0 <= k < |Generated(h, life, template, p).items| ==>
              var item := Generated(h, life, template, p).items[k];
              item.CaseItem? && WellShaped(item.c) ==> CaseConsistent(h, item.c)
  {
    var generatedAt := Get(template.fields, GeneratedAt);
    var prepared := PreparedItems(h, life, generatedAt, template.items);
    PreparedAreConsistent(h, life, generatedAt, template.items);
    AppendedCases(h, prepared);
    var r := Generated(h, life, template, p);
    hide PreparedItems, CaseConsistent, WellShaped, LifecycleTampered, VerifierTampered, Published, PacketDigest,
         AppendLifecycleCases, AppendVerifierCases, FindSource;
    forall k | 0 <= k < |r.items| && r.items[k].CaseItem? && WellShaped(r.items[k].c)
        ensures CaseConsistent(h, r.items[k].c) {
      if k < |prepared| {
        assert r.items[k] == prepared[k];
      } else {
        var source := FindSource(prepared).value;
        var j := k - |prepared|;
        assert r.items[k] == r.items[|prepared|..][j] == (LifecycleCases(h, source) + VerifierCases(h, source))[j];
        var lt := if j < 3 then LIFECYCLE_TAMPERS[j] else OutcomeMissing;
        var vt := if j < 3 then IdMismatch else VERIFIER_TAMPERS[j - 3];
        TamperedShape(h, source, lt, vt);
        TamperedIsConsistent(h, source, lt, vt);
        ShapeDecides(source, r.items[k].c);
      }
    }
  }

  function PreparedCase(h: Digest, life: Lifecycle, generatedAt: Value, c: Case): Case {
    EnsureEvidence(h, life, generatedAt, BindContext(c))
  }

  lemma PreparationKeepsCaseId(h: Digest, life: Lifecycle, generatedAt: Value, c: Case)
    ensures Get(PreparedCase(h, life, generatedAt, c).fields, CaseId) == Get(c.fields, CaseId)
  {
    hide Recompute, IsVerified, WithVerifierDefaults, UnverifiedChain, VerifiedChain, SummaryFor, EvidenceFor,
         BoundSummary, ChainOf;
  }

  lemma {:induction false} SourceIsPrepared(h: Digest, life: Lifecycle, generatedAt: Value, items: seq<Item>)
    ensures FindSource(PreparedItems(h, life, generatedAt, items))
         == match FindSource(items) case Some(c) => Some(PreparedCase(h, life, generatedAt, c)) case None => None
  {
    hide EnsureEvidence, BindContext;
    var prepared := PreparedItems(h, life, generatedAt, items);
    if items != [] {
      if items[0].CaseItem? { PreparationKeepsCaseId(h, life, generatedAt, items[0].c); }
      assert prepared[1..] == PreparedItems(h, life, generatedAt, items[1..]);
      SourceIsPrepared(h, life, generatedAt, items[1..]);
    }
  }

  lemma BindingKeepsVerdict(c: Case)
    requires c.summary.Dictionary?
    ensures BindContext(c).summary.Dictionary?
    ensures IsVerified(WithVerifierDefaults(BindContext(c).summary.fields), FieldsOr(c.manifest))
        == IsVerified(c.summary.fields, FieldsOr(c.manifest))
  {
    hide Binding, WithVerifierDefaults, Truthy, Get;
    var s := c.summary.fields;
    var existing := if Get(s, ContextBinding).Obj? then Get(s, ContextBinding).fields else map[];
    var bound := s[ContextBinding := Obj(Binding(existing, FieldsOr(c.manifest), c.outcome))];
    assert BindContext(c).summary.fields == WithVerifierDefaults(bound);
    DefaultsFrame(bound);
    DefaultsFrame(WithVerifierDefaults(bound));
    UpdateFrame(s, ContextBinding, Obj(Binding(existing, FieldsOr(c.manifest), c.outcome)));
    SameAt(bound, s, {ContextBinding}, Approved);
    SameAt(bound, s, {ContextBinding}, ReceiptHashPresent);
    SameAt(bound, s, {ContextBinding}, FailureReasons);
  }

  lemma DefaultsFrame(s: Dict)
    ensures var d := WithVerifierDefaults(s);
            && Get(d, Approved) == Get(s, Approved)
            && Get(d, ReceiptHashPresent) == Get(s, ReceiptHashPresent)
            && Get(d, FailureReasons) == Get(s, FailureReasons)
  {
  }

  /** The generator's negative fixtures: if the template's source case is well-shaped and claims a verified approval,
      the packet holds the prepared source, in which everything agrees, and after the template's cases eight more that
      block.  Each lifecycle case breaks the lifecycle hash and no verifier link, each verifier case the one link it is
      aimed at, provided the source did not carry the tamper value already. */
  lemma GeneratedTampersShow(h: Digest, life: Lifecycle, template: Packet, p: Publication, c: Case)
    requires template.hasCases && FindSource(template.items) == Some(c)
    requires WellShaped(c) && IsVerified(c.summary.fields, c.manifest.fields)
    ensures var all := Generated(h, life, template, p).items;
            var n := |template.items|;
            var source := PreparedCase(h, life, Get(template.fields, GeneratedAt), c);
            && |all| == n + 8 && CaseItem(source) in all[..n]
            && WellShaped(source) && LifecycleHolds(source) && (forall l: Link :: LinkHolds(source, l))
            && (forall j :: 0 <= j < 3 ==> all[n + j] == CaseItem(LifecycleTampered(h, source, LIFECYCLE_TAMPERS[j])))
            && (forall j :: 0 <= j < 5 ==> all[n + 3 + j] == CaseItem(VerifierTampered(h, source, VERIFIER_TAMPERS[j])))
            && (forall t: LifecycleTamper :: LifecycleShows(source, LifecycleTampered(h, source, t), t))
            && (forall t: VerifierTamper :: VerifierShows(source, VerifierTampered(h, source, t), t))
  {
    hide EnsureEvidence, BindContext, IsVerified, WithVerifierDefaults, LifecycleTampered, VerifierTampered,
         PreparedItems, Published, FindSource, LinkHolds, LifecycleHolds, Get, WellShaped, Blocks, PacketDigest;
    var generatedAt := Get(template.fields, GeneratedAt);
    var prepared := PreparedItems(h, life, generatedAt, template.items);
    var source := PreparedCase(h, life, generatedAt, c);
    SourceIsPrepared(h, life, generatedAt, template.items);
    PreparedLength(h, life, generatedAt, template.items);
    AppendedCases(h, prepared);
    SourceIsCoherent(h, life, generatedAt, c);
    var all := Generated(h, life, template, p).items;
    var n := |template.items|;
    assert all == AppendVerifierCases(h, AppendLifecycleCases(h, prepared));
    assert all[..n] == prepared;
    forall j | 0 <= j < 8 ensures all[n + j] == all[n..][j] {}
    forall t: LifecycleTamper ensures LifecycleShows(source, LifecycleTampered(h, source, t), t) {
      ShownLifecycle(h, source, t);
    }
    forall t: VerifierTamper ensures VerifierShows(source, VerifierTampered(h, source, t), t) {
      ShownVerifier(h, source, t);
    }
  }

  lemma PreparedLength(h: Digest, life: Lifecycle, generatedAt: Value, items: seq<Item>)
    ensures |PreparedItems(h, life, generatedAt, items)| == |items|
  {
  }

  lemma SourceIsCoherent(h: Digest, life: Lifecycle, generatedAt: Value, c: Case)
    requires WellShaped(c) && IsVerified(c.summary.fields, c.manifest.fields)
    ensures var source := PreparedCase(h, life, generatedAt, c);
            && WellShaped(source) && LifecycleHolds(source) && (forall l: Link :: LinkHolds(source, l))
            && Truthy(Get(source.summary.fields, VerificationProofHash))
            && Get(source.manifest.fields, LifecycleHash) == SnapshotHashOf(life(source.summary.fields))
  {
    hide SnapshotHashOf, Get, Truthy, EnsureEvidence, IsVerified, WithVerifierDefaults, BoundSummary, LinkHolds,
         LifecycleHolds;
    BindingKeepsVerdict(c);
    VerifiedCaseIsCoherent(h, life, generatedAt, BindContext(c));
    assert SummaryField(ProofLink) == VerificationProofHash;
  }

  /** The lifecycle summary derived from a summary with a proof hash carries a snapshot hash. */
  ghost predicate HashesProofs(life: Lifecycle) {
    forall s: Dict :: Truthy(Get(s, VerificationProofHash)) ==> SnapshotHashOf(life(s)).Str?
  }

  /** Under that condition, which the repository's lifecycle summaries meet, the two tampers that take the lifecycle
      hash away always show, and the third shows unless the hash is the tamper value. */
  lemma LifecycleTampersAlwaysShow(h: Digest, life: Lifecycle, generatedAt: Value, c: Case)
    requires WellShaped(c) && IsVerified(c.summary.fields, c.manifest.fields) && HashesProofs(life)
    ensures var source := PreparedCase(h, life, generatedAt, c);
            && WellShaped(source) && Get(source.manifest.fields, LifecycleHash).Str?
            && !LifecycleHolds(LifecycleTampered(h, source, OutcomeMissing))
            && !LifecycleHolds(LifecycleTampered(h, source, ManifestMissing))
            && (!LifecycleHolds(LifecycleTampered(h, source, HashMismatch)) <==>
                  Get(source.manifest.fields, LifecycleHash) != MISMATCHED_LIFECYCLE_HASH)
  {
    hide IsVerified, PreparedCase, LifecycleTampered, LifecycleHolds, LinkHolds, Get, Truthy, SnapshotHashOf,
         WellShaped, Blocks, MISMATCHED_LIFECYCLE_HASH;
    var source := PreparedCase(h, life, generatedAt, c);
    SourceIsCoherent(h, life, generatedAt, c);
    ShapeOfManifest(source);
    ShownLifecycle(h, source, OutcomeMissing);
    ShownLifecycle(h, source, ManifestMissing);
    ShownLifecycle(h, source, HashMismatch);
  }

  lemma ShapeOfManifest(c: Case)
    requires WellShaped(c)
    ensures c.manifest.Dictionary? && c.summary.Dictionary?
  {
  }

  predicate LifecycleShows(source: Case, d: Case, t: LifecycleTamper) {
    && Blocks(d.fields)
    && (forall l: Link :: LinkHolds(d, l))
    && (!LifecycleHolds(d) <==> Get(FieldsOr(source.manifest), LifecycleHash) != LifecycleTamperValue(t))
  }

  predicate VerifierShows(source: Case, d: Case, t: VerifierTamper) {
    && Blocks(d.fields)
    && LifecycleHolds(d)
    && (forall l: Link :: TargetLink(t) != Some(l) ==> LinkHolds(d, l))
    && (TargetLink(t).Some? ==>
          (!LinkHolds(d, TargetLink(t).value) <==> Get(FieldsOr(source.summary), TamperedField(t)) != TamperedValue(t)))
    && Get(FieldsOr(d.summary), TamperedField(t)) == TamperedValue(t)
    && (Get(FieldsOr(d.summary), TamperedField(t)) != Get(FieldsOr(source.summary), TamperedField(t)) <==>
          Get(FieldsOr(source.summary), TamperedField(t)) != TamperedValue(t))
    && Get(d.fields, LifecycleSummary) == Get(source.fields, LifecycleSummary)
    && Get(FieldsOr(d.verification), VerifiedAt) == Get(FieldsOr(source.verification), VerifiedAt)
    && (t.VerifiedAtMismatch? ==>
          (Get(FieldsOr(d.summary), VerifiedAt) != Get(FieldsOr(d.verification), VerifiedAt) <==>
             Get(FieldsOr(source.verification), VerifiedAt) != TamperedValue(t)))
  }

  lemma ShownLifecycle(h: Digest, source: Case, t: LifecycleTamper)
    requires WellShaped(source) && LifecycleHolds(source) && (forall l: Link :: LinkHolds(source, l))
    ensures LifecycleShows(source, LifecycleTampered(h, source, t), t)
  {
    hide LifecycleTampered, LinkHolds, LifecycleHolds, Get, Blocks, LifecycleTamperValue, VerifierTampered, ChainOf,
         Recompute, Labelled, LifecycleLabel, VerifierLabel, LifecycleBroken, VerifierMarked, TamperedField,
         TamperedValue;
    TamperedParts(h, source, t, IdMismatch);
    CaseLabelFrame(source.fields, LifecycleLabel(t));
    LifecycleTamperBreaksOneLink(h, source, t);
  }

  lemma ShownVerifier(h: Digest, source: Case, t: VerifierTamper)
    requires WellShaped(source) && LifecycleHolds(source) && (forall l: Link :: LinkHolds(source, l))
    ensures VerifierShows(source, VerifierTampered(h, source, t), t)
  {
    hide VerifierTampered, LinkHolds, LifecycleHolds, Get, Blocks, TamperedValue, TamperedField, TargetLink,
         LifecycleTampered, ChainOf, Recompute, Labelled, LifecycleLabel, VerifierLabel;
    VerifierTamperBreaksOneLink(h, source, t);
    TimestampShows(h, source, t);
  }

  /** Whatever a verifier tamper is aimed at, the verification and lifecycle summaries keep their timestamps, so the
      tampered timestamp disagrees with the former exactly if that is not the tamper value. */
  lemma TimestampShows(h: Digest, source: Case, t: VerifierTamper)
    requires WellShaped(source)
    ensures var d := VerifierTampered(h, source, t);
            && WellShaped(d) && Blocks(d.fields)
            && Get(d.summary.fields, TamperedField(t)) == TamperedValue(t)
            && Get(d.fields, LifecycleSummary) == Get(source.fields, LifecycleSummary)
            && Get(d.verification.fields, VerifiedAt) == Get(source.verification.fields, VerifiedAt)
            && (t.VerifiedAtMismatch? ==> TamperedField(t) == VerifiedAt)
  {
    hide VerifierTampered, Get, Blocks, Reports, TamperedValue, SameExcept, VerifierLabel;
    var d := VerifierTampered(h, source, t);
    VerifierTamperFrame(h, source, t);
    SameAt(d.fields, source.fields, LABEL_FIELDS, LifecycleSummary);
    SameAt(d.verification.fields, source.verification.fields, REPORT_FIELDS, VerifiedAt);
  }
}
