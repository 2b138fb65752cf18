/** The reviewer evidence packet as the mutable records that
    `scripts/demo/generate_reviewer_evidence_packet_from_evaluation_governance_chain.py` updates in place.

    Every method is proved against the function of `EvidenceChain` that says what becomes of the records' values. */
module EvidencePacket {
  import opened Optional
  import opened EvidenceChain

  // ---------------------------------------------------------------- records

  /** A dictionary that is updated in place. */
  class Record {
    var fields: Dict

    constructor (d: Dict)
      ensures fields == d
    {
      fields := d;
    }
  }

  /** What a record holds under a key where another record is expected. */
  datatype Slot = Rec(r: Record) | NotRecord(value: Option<Value>)

  /** The outcome receipt, with the metadata record it refers to. */
  class OutcomeRecord {
    var fields: Dict
    var metadata: Slot

    constructor (d: Dict, m: Slot)
      ensures fields == d && metadata == m
    {
      fields, metadata := d, m;
    }
  }

  datatype OutcomeSlot = OutcomeRec(r: OutcomeRecord) | NotOutcome(value: Option<Value>)

  ghost function SlotObjects(s: Slot): set<object> { if s.Rec? then {s.r} else {} }

  function SlotView(s: Slot): Section
    reads SlotObjects(s)
  {
    match s
    case Rec(r) => Dictionary(r.fields)
    case NotRecord(v) => Plain(v)
  }

  ghost function OutcomeObjects(o: OutcomeSlot): set<object>
    reads if o.OutcomeRec? then {o.r} else {}
  {
    if o.OutcomeRec? then {o.r} + SlotObjects(o.r.metadata) else {}
  }

  function OutcomeView(o: OutcomeSlot): Receipt
    reads if o.OutcomeRec? then {o.r} else {}
    reads OutcomeObjects(o)
  {
    match o
    case OutcomeRec(r) => Outcome(r.fields, SlotView(r.metadata))
    case NotOutcome(v) => NoOutcome(v)
  }

  ghost predicate Apart(a: Slot, b: Slot) { a.Rec? && b.Rec? ==> a.r != b.r }

  /** A case of the packet.  It shares no record with another case, and its sections share none with each other. */
  class CaseRecord {
    var fields: Dict
    var summary: Slot
    var manifest: Slot
    var outcome: OutcomeSlot
    var verification: Slot
    ghost var Repr: set<object>

    ghost predicate Valid()
      reads this, Repr
    {
      && this in Repr
      && SlotObjects(summary) + SlotObjects(manifest) + SlotObjects(verification) <= Repr
      && (outcome.OutcomeRec? ==> outcome.r in Repr && SlotObjects(outcome.r.metadata) <= Repr)
      && Apart(summary, manifest) && Apart(summary, verification) && Apart(manifest, verification)
      && (outcome.OutcomeRec? ==>
            Apart(outcome.r.metadata, summary) && Apart(outcome.r.metadata, manifest)
                && Apart(outcome.r.metadata, verification))
    }

    function View(): Case
      requires Valid()
      reads this, Repr
    {
      Case(fields, SlotView(summary), SlotView(manifest), OutcomeView(outcome), SlotView(verification))
    }

    /** A case whose sections are records among `objects`. */
    constructor (d: Dict, s: Slot, m: Slot, o: OutcomeSlot, v: Slot, ghost objects: set<object>)
      requires Apart(s, m) && Apart(s, v) && Apart(m, v)
      requires o.OutcomeRec? ==> Apart(o.r.metadata, s) && Apart(o.r.metadata, m) && Apart(o.r.metadata, v)
      requires SlotObjects(s) <= objects && SlotObjects(m) <= objects && SlotObjects(v) <= objects
      requires o.OutcomeRec? ==> o.r in objects && SlotObjects(o.r.metadata) <= objects
      ensures Valid() && fields == d && summary == s && manifest == m && outcome == o && verification == v
      ensures Repr == {this} + objects
      ensures View() == Case(d, SlotView(s), SlotView(m), OutcomeView(o), SlotView(v))
    {
      fields, summary, manifest, outcome, verification := d, s, m, o, v;
      Repr := {this} + objects;
    }
  }

  // ---------------------------------------------------------------- nested hashes

  ghost function ChainView(manifest: Record, outcome: OutcomeRecord, verification: Record): Chain
    reads manifest, outcome, SlotObjects(outcome.metadata), verification
  {
    Chain(manifest.fields, outcome.fields, SlotView(outcome.metadata), verification.fields)
  }

  /** `_recompute_nested_hashes`. */
  method RecomputeNestedHashes(h: Digest, manifest: Record, outcome: OutcomeRecord, verification: Record,
      includeProofLink: bool)
    requires manifest != verification && manifest !in SlotObjects(outcome.metadata)
        && verification !in SlotObjects(outcome.metadata)
    modifies manifest, outcome`fields, verification
    ensures ChainView(manifest, outcome, verification)
        == Recompute(h, old(ChainView(manifest, outcome, verification)), includeProofLink)
  {
    var metadata := if outcome.metadata.Rec? then Dictionary(outcome.metadata.r.fields)
        else Plain(outcome.metadata.value);
    var outcomePayload := OutcomeDict(outcome.fields, metadata) - {OutcomeHash};
    outcome.fields := outcome.fields[OutcomeHash := Str(h(Obj(outcomePayload)))];
    manifest.fields := manifest.fields[OutcomeReceiptHash := outcome.fields[OutcomeHash]];
    var manifestPayload := manifest.fields - {ManifestHash};
    manifest.fields := manifest.fields[ManifestHash := Str(h(Obj(manifestPayload)))];
    verification.fields := verification.fields[RecomputedManifestHash := manifest.fields[ManifestHash]];
    verification.fields := verification.fields[ManifestHashMatches := Bool(true)];
    verification.fields := SetDefault(verification.fields, VerifiedLinks, Arr([]));
    var verifiedLinks := verification.fields[VerifiedLinks];
    if includeProofLink && verifiedLinks.Arr? && PROOF_LINK !in verifiedLinks.items {
      verification.fields := verification.fields[VerifiedLinks := Arr(verifiedLinks.items + [PROOF_LINK])];
    }
    hide OutcomeDict;
    assert verification.fields == VerificationOf(old(verification.fields), manifest.fields[ManifestHash],
        includeProofLink);
  }

  // ---------------------------------------------------------------- the working copies of a case's sections

  /** The records a pass works on: those of the case, or other ones in the place of what is no record. */
  ghost predicate Linked(c: CaseRecord, manifest: Record, outcome: OutcomeRecord, verification: Record)
    reads c, c.Repr, outcome
  {
    && c.Valid()
    && (if c.manifest.Rec? then manifest == c.manifest.r else manifest !in c.Repr)
    && (if c.outcome.OutcomeRec? then outcome == c.outcome.r else outcome !in c.Repr)
    && (if c.verification.Rec? then verification == c.verification.r else verification !in c.Repr)
    && manifest != verification
    && SlotObjects(outcome.metadata) !! {manifest, verification} + SlotObjects(c.summary)
  }

  /** To begin with, the other records are empty. */
  ghost predicate Works(c: CaseRecord, manifest: Record, outcome: OutcomeRecord, verification: Record)
    reads c, c.Repr, manifest, outcome, SlotObjects(outcome.metadata), verification
  {
    && Linked(c, manifest, outcome, verification)
    && ChainView(manifest, outcome, verification) == ChainOf(c.View())
  }

  /** A case whose sections are still the same records has the value its working records give it. */
  twostate lemma WorksView(c: CaseRecord, new manifest: Record, new outcome: OutcomeRecord, new verification: Record)
    requires old(c.Valid()) && c.Valid()
    requires c.summary == old(c.summary) && c.manifest == old(c.manifest) && c.outcome == old(c.outcome)
        && c.verification == old(c.verification)
    requires c.manifest.Rec? ==> manifest == c.manifest.r
    requires c.outcome.OutcomeRec? ==> outcome == c.outcome.r
    requires c.verification.Rec? ==> verification == c.verification.r
    ensures c.View() == WithChain(old(c.View()).(fields := c.fields, summary := SlotView(c.summary)),
        ChainView(manifest, outcome, verification))
  {
  }

  method RecordOrFresh(s: Slot) returns (r: Record)
    ensures if s.Rec? then r == s.r else fresh(r) && r.fields == map[]
  {
    if s.Rec? { r := s.r; } else { r := new Record(map[]); }
  }

  method OutcomeOrFresh(s: OutcomeSlot) returns (r: OutcomeRecord)
    ensures if s.OutcomeRec? then r == s.r else fresh(r) && r.fields == map[] && r.metadata == NotRecord(None)
  {
    if s.OutcomeRec? { r := s.r; } else { r := new OutcomeRecord(map[], NotRecord(None)); }
  }

  method WorkingSections(c: CaseRecord) returns (manifest: Record, outcome: OutcomeRecord, verification: Record)
    requires c.Valid()
    ensures Works(c, manifest, outcome, verification)
    ensures fresh({manifest, outcome, verification} + SlotObjects(outcome.metadata) - c.Repr)
    ensures manifest.fields == FieldsOr(c.View().manifest)
  {
    manifest := RecordOrFresh(c.manifest);
    outcome := OutcomeOrFresh(c.outcome);
    verification := RecordOrFresh(c.verification);
  }

  /** `outcome.setdefault("metadata", {})`, replaced by a fresh dictionary if it is none. */
  method MetadataOf(c: CaseRecord, manifest: Record, outcome: OutcomeRecord, verification: Record)
      returns (metadata: Record)
    requires Linked(c, manifest, outcome, verification)
    modifies c`Repr, outcome`metadata
    ensures Linked(c, manifest, outcome, verification) && fresh(c.Repr - old(c.Repr)) && old(c.Repr) <= c.Repr
    ensures outcome.metadata == Rec(metadata)
    ensures old(outcome.metadata).Rec? ==> metadata == old(outcome.metadata).r
    ensures old(outcome.metadata).NotRecord? ==> fresh(metadata)
    ensures metadata.fields == FieldsOr(old(SlotView(outcome.metadata)))
  {
    if outcome.metadata.Rec? {
      metadata := outcome.metadata.r;
    } else {
      metadata := new Record(map[]);
      outcome.metadata := Rec(metadata);
      if c.outcome.OutcomeRec? { c.Repr := c.Repr + {metadata}; }
    }
  }

  // ---------------------------------------------------------------- one case

  /** The body of the loop of `_ensure_human_approval_context_binding`. */
  method BindCaseContext(c: CaseRecord)
    requires c.Valid()
    modifies c.Repr
    ensures c.Valid() && c.Repr == old(c.Repr)
    ensures c.View() == BindContext(old(c.View()))
  {
    hide Get, Or, WithVerifierDefaults;
    if c.summary.NotRecord? { return; }
    var summary := c.summary.r;
    var manifest := if c.manifest.Rec? then c.manifest.r.fields else map[];
    var outcome := if c.outcome.OutcomeRec? then c.outcome.r.fields else map[];
    var existing := if Get(summary.fields, ContextBinding).Obj? then Get(summary.fields, ContextBinding).fields
        else map[];
    summary.fields := summary.fields[ContextBinding := Obj(map[
      RequestRef := Get(existing, RequestRef),
      AiOutputRef := Get(existing, AiOutputRef),
      ExecutionIntentId := Or(Or(Get(existing, ExecutionIntentId), Get(manifest, ExecutionIntentId)),
          Get(outcome, ExecutionIntentId)),
      DecisionId := Or(Or(Get(existing, DecisionId), Get(manifest, DecisionId)), Get(outcome, DecisionId)),
      ActionClass := Or(Or(Get(existing, ActionClass), Get(manifest, ActionClass)), Get(outcome, ActionClass)),
      PolicySnapshotId := Get(existing, PolicySnapshotId),
      AuthorityEvidenceId := Or(Get(existing, AuthorityEvidenceId), Get(manifest, AuthorityEvidenceId)),
      BindContextHash := Get(existing, BindContextHash)])];
    summary.fields := WithVerifierDefaults(summary.fields);
    c.fields := SetDefault(c.fields, LifecycleSummary, Null);
  }

  method EnsureUnverifiedCase(h: Digest, c: CaseRecord, manifest: Record, outcome: OutcomeRecord, verification: Record)
    requires Works(c, manifest, outcome, verification) && c.summary.Rec?
    modifies c.Repr, manifest, outcome, verification
    ensures c.Valid() && c.Repr == old(c.Repr)
    ensures c.View() == EnsureUnverified(h, old(c.View()), old(c.summary.r.fields))
  {
    hide Recompute, Get;
    ghost var before := c.View();
    c.fields := c.fields[LifecycleSummary := Null];
    manifest.fields := SetDefault(manifest.fields, LifecycleHash, Null);
    RecomputeNestedHashes(h, manifest, outcome, verification, false);
    WorksView(c, manifest, outcome, verification);
  }

  /** Five verifier values and the timestamp, written to the summary, the manifest and the metadata. */
  method RecordEvidence(summary: Record, manifest: Record, metadata: Record, verification: Record, generatedAt: Value,
      ghost chain: Chain)
    requires summary != manifest && summary != metadata && manifest != metadata
        && verification !in {summary, manifest, metadata}
    requires chain.manifest == manifest.fields && FieldsOr(chain.metadata) == metadata.fields
        && chain.verification == verification.fields
    modifies summary, manifest, metadata
    ensures summary.fields == SummaryFor(chain, old(summary.fields), generatedAt)
    ensures manifest.fields == VerifiedChainFields(old(manifest.fields), EvidenceFor(chain, old(summary.fields)))
    ensures metadata.fields == VerifiedMetadata(old(metadata.fields), EvidenceFor(chain, old(summary.fields)),
        Get(summary.fields, ApprovalReceiptId))
  {
    hide EvidenceOf, VerifiedChainFields, VerifiedMetadata, VerifiedSummary, Get, Or;
    var evidence := EvidenceOf(summary.fields, manifest.fields, metadata.fields);
    var verifiedAt := Or(Or(Get(summary.fields, VerifiedAt), Get(verification.fields, VerifiedAt)), generatedAt);
    summary.fields := VerifiedSummary(summary.fields, evidence, verifiedAt);
    manifest.fields := VerifiedChainFields(manifest.fields, evidence);
    metadata.fields := VerifiedMetadata(metadata.fields, evidence, Get(summary.fields, ApprovalReceiptId));
  }

  method FillEvidence(c: CaseRecord, manifest: Record, outcome: OutcomeRecord, verification: Record, generatedAt: Value)
    requires Works(c, manifest, outcome, verification) && c.summary.Rec?
    modifies c`Repr, outcome`metadata, c.summary.r, manifest, SlotObjects(outcome.metadata)
    ensures Linked(c, manifest, outcome, verification) && outcome.metadata.Rec? && fresh(c.Repr - old(c.Repr))
        && old(c.Repr) <= c.Repr
    ensures fresh(SlotObjects(outcome.metadata) - old(SlotObjects(outcome.metadata)))
    ensures c.summary.r.fields == SummaryFor(old(ChainView(manifest, outcome, verification)), old(c.summary.r.fields),
        generatedAt)
    ensures ChainView(manifest, outcome, verification)
         == Filled(old(ChainView(manifest, outcome, verification)),
                   EvidenceFor(old(ChainView(manifest, outcome, verification)), old(c.summary.r.fields)),
                       Get(c.summary.r.fields, ApprovalReceiptId))
    ensures c.View() == WithChain(old(c.View()).(summary := Dictionary(c.summary.r.fields)),
        ChainView(manifest, outcome, verification))
  {
    hide EvidenceFor, SummaryFor, VerifiedChainFields, VerifiedMetadata, Get, WithChain, ChainOf;
    ghost var before, chain := c.View(), ChainView(manifest, outcome, verification);
    var metadata := MetadataOf(c, manifest, outcome, verification);
    RecordEvidence(c.summary.r, manifest, metadata, verification, generatedAt, chain);
    WorksView(c, manifest, outcome, verification);
  }

  method AttachSnapshot(h: Digest, c: CaseRecord, manifest: Record, outcome: OutcomeRecord, verification: Record,
      lifecycle: Value)
    requires Linked(c, manifest, outcome, verification) && outcome.metadata.Rec?
    modifies c`fields, manifest, outcome, SlotObjects(outcome.metadata), verification
    ensures c.Valid()
    ensures c.View() == WithChain(old(c.View()).(fields := old(c.fields)[LifecycleSummary := lifecycle]),
                                  Recompute(h, Snapshotted(old(ChainView(manifest, outcome, verification)),
                                      SnapshotHashOf(lifecycle)), true))
  {
    hide Recompute, SnapshotHashOf, WithChain;
    ghost var before := c.View();
    var metadata := outcome.metadata.r;
    c.fields := c.fields[LifecycleSummary := lifecycle];
    var snapshot := SnapshotHashOf(lifecycle);
    manifest.fields := manifest.fields[LifecycleHash := snapshot];
    metadata.fields := metadata.fields[LifecycleHash := snapshot];
    RecomputeNestedHashes(h, manifest, outcome, verification, true);
    WorksView(c, manifest, outcome, verification);
  }

  method EnsureVerifiedCase(h: Digest, life: Lifecycle, generatedAt: Value, c: CaseRecord,
                            manifest: Record, outcome: OutcomeRecord, verification: Record)
    requires Works(c, manifest, outcome, verification) && c.summary.Rec?
    modifies c.Repr, manifest, outcome, SlotObjects(outcome.metadata), verification
    ensures c.Valid() && fresh(c.Repr - old(c.Repr)) && old(c.Repr) <= c.Repr
    ensures c.View() == EnsureVerified(h, life, generatedAt, old(c.View()), old(c.summary.r.fields))
  {
    hide Recompute, EvidenceFor, SummaryFor, Filled, Snapshotted, Get, SnapshotHashOf, WithChain, ChainOf;
    ghost var before := c.View();
    FillEvidence(c, manifest, outcome, verification, generatedAt);
    ghost var filled, s := ChainView(manifest, outcome, verification), c.summary.r.fields;
    var lifecycle := life(c.summary.r.fields);
    AttachSnapshot(h, c, manifest, outcome, verification, lifecycle);
    LastChainWins(before.(summary := Dictionary(s)), filled, before.fields[LifecycleSummary := lifecycle],
                  Recompute(h, Snapshotted(filled, SnapshotHashOf(lifecycle)), true));
  }

  method DefaultVerifierFields(c: CaseRecord)
    requires c.Valid() && c.summary.Rec?
    modifies c.summary.r
    ensures c.Valid()
    ensures c.summary.r.fields == WithVerifierDefaults(old(c.summary.r.fields))
    ensures c.View() == old(c.View()).(summary := Dictionary(c.summary.r.fields))
  {
    hide WithVerifierDefaults;
    c.summary.r.fields := WithVerifierDefaults(c.summary.r.fields);
  }

  /** The body of the loop of `_ensure_human_approval_verifier_evidence`. */
  method EnsureCaseEvidence(h: Digest, life: Lifecycle, generatedAt: Value, c: CaseRecord)
    requires c.Valid()
    modifies c.Repr
    ensures c.Valid() && fresh(c.Repr - old(c.Repr)) && old(c.Repr) <= c.Repr
    ensures c.View() == EnsureEvidence(h, life, generatedAt, old(c.View()))
  {
    hide WithVerifierDefaults, IsVerified, Get, EnsureUnverified, EnsureVerified, ChainOf, FieldsOr, OutcomeView, Works;
    if c.summary.NotRecord? { return; }
    ghost var before := c.View();
    DefaultVerifierFields(c);
    EnsureIgnoresSummary(h, life, generatedAt, before, c.summary.r.fields);
    var manifest, outcome, verification := WorkingSections(c);
    if !IsVerified(c.summary.r.fields, manifest.fields) {
      EnsureUnverifiedCase(h, c, manifest, outcome, verification);
    } else {
      EnsureVerifiedCase(h, life, generatedAt, c, manifest, outcome, verification);
    }
  }

  // ---------------------------------------------------------------- tampering one case

  method CopySlot(s: Slot, ghost others: set<object>) returns (t: Slot)
    ensures t.Rec? == s.Rec? && SlotView(t) == SlotView(s) && fresh(SlotObjects(t)) && SlotObjects(t) !! others
  {
    if s.Rec? {
      var r := new Record(s.r.fields);
      t := Rec(r);
    } else {
      t := s;
    }
  }

  method CopyOutcome(o: OutcomeSlot) returns (p: OutcomeSlot)
    ensures p.OutcomeRec? == o.OutcomeRec? && OutcomeView(p) == OutcomeView(o)
    ensures p.OutcomeRec? ==> fresh(p.r) && fresh(SlotObjects(p.r.metadata))
  {
    if o.OutcomeRec? {
      var m := CopySlot(o.r.metadata, {});
      var r := new OutcomeRecord(o.r.fields, m);
      p := OutcomeRec(r);
    } else {
      p := o;
    }
  }

  /** `copy.deepcopy`: the same value in records of its own. */
  method DeepCopy(c: CaseRecord) returns (d: CaseRecord)
    requires c.Valid()
    ensures d.Valid() && fresh(d.Repr) && d.View() == c.View()
  {
    var o := CopyOutcome(c.outcome);
    ghost var objects := if o.OutcomeRec? then {o.r} + SlotObjects(o.r.metadata) else {};
    var s := CopySlot(c.summary, objects);
    objects := objects + SlotObjects(s);
    var m := CopySlot(c.manifest, objects);
    objects := objects + SlotObjects(m);
    var v := CopySlot(c.verification, objects);
    objects := objects + SlotObjects(v);
    assert fresh(objects);
    assert Case(c.fields, SlotView(s), SlotView(m), OutcomeView(o), SlotView(v)) == old(c.View());
    assert Apart(s, m) && Apart(s, v) && Apart(m, v);
    assert o.OutcomeRec? ==> Apart(o.r.metadata, s) && Apart(o.r.metadata, m) && Apart(o.r.metadata, v);
    d := new CaseRecord(c.fields, s, m, o, v, objects);
  }

  method CopySection(d: Dict, f: Field, s: Slot) returns (e: Dict)
    ensures e == Put(d, f, SlotView(s))
  {
    match s {
      case Rec(r) => e := d[f := Obj(r.fields)];
      case NotRecord(Some(v)) => e := d[f := v];
      case NotRecord(None) => e := d - {f};
    }
  }

  /** The JSON value of a case, read off its records. */
  method CopyCase(c: CaseRecord) returns (v: Value)
    requires c.Valid()
    ensures v == CaseValue(c.View())
  {
    hide Put;
    var d := CopySection(c.fields, HumanApprovalSummary, c.summary);
    d := CopySection(d, ManifestSummary, c.manifest);
    var receipt: Section;
    match c.outcome {
      case OutcomeRec(r) =>
        var fields := CopySection(r.fields, Metadata, r.metadata);
        receipt := Dictionary(fields);
      case NotOutcome(value) =>
        receipt := Plain(value);
    }
    d := Put(d, OutcomeSummary, receipt);
    d := CopySection(d, VerificationSummary, c.verification);
    v := Obj(d);
  }

  lemma DigestOfPayload(h: Digest, p: Packet, payload: Dict)
    requires payload == PacketDict(p) - {PacketHash}
    ensures PacketDigest(h, p) == Str(h(Obj(payload)))
  {
  }

  /** `_commit_safety_fields`. */
  method CommitSafetyFields(c: CaseRecord, reason: string)
    modifies c`fields
    ensures c.fields == CommitSafety(old(c.fields), reason)
  {
    c.fields := c.fields[ExpectedOutcome := Str("block")];
    c.fields := c.fields[ActualOutcome := Str("block")];
    c.fields := c.fields[RuntimeRecommendedOutcome := Str("block")];
    c.fields := c.fields[Passed := Bool(true)];
    c.fields := SetDefault(c.fields, FailureReasons, Arr([]));
    var reasons := c.fields[FailureReasons];
    if reasons.Arr? && Str(reason) !in reasons.items {
      c.fields := c.fields[FailureReasons := Arr(reasons.items + [Str(reason)])];
    }
  }

  /** `_mark_lifecycle_continuity_failure`. */
  method MarkLifecycleContinuityFailure(c: CaseRecord, tag: Label)
    modifies SlotObjects(c.verification)
    ensures c.verification.Rec? ==> c.verification.r.fields == MarkLifecycleFailure(old(c.verification.r.fields), tag)
  {
    if c.verification.NotRecord? { return; }
    hide WithoutValue;
    var verification := c.verification.r;
    verification.fields := MarkFailure(verification.fields, tag);
    verification.fields := verification.fields[LifecycleContinuityVerified := Bool(false)];
    verification.fields := verification.fields[LifecycleContinuityFailureReasons := Arr([Str(tag.reason)])];
    var verifiedLinks := Get(verification.fields, VerifiedLinks);
    if verifiedLinks.Arr? {
      var continuity := Str(LIFECYCLE_FIELD_NAME + "_continuity");
      verification.fields := verification.fields[VerifiedLinks := Arr(WithoutValue(verifiedLinks.items, continuity))];
    }
  }

  /** `_mark_verifier_continuity_failure`. */
  method MarkVerifierContinuityFailure(c: CaseRecord, tag: Label)
    modifies SlotObjects(c.verification)
    ensures c.verification.Rec? ==> c.verification.r.fields == MarkFailure(old(c.verification.r.fields), tag)
  {
    if c.verification.NotRecord? { return; }
    c.verification.r.fields := MarkFailure(c.verification.r.fields, tag);
  }

  /** Takes the lifecycle hash away on one side, or replaces it, and reports the failure. */
  method BreakLifecycle(c: CaseRecord, manifest: Record, outcome: OutcomeRecord, verification: Record,
      t: LifecycleTamper)
    requires Linked(c, manifest, outcome, verification) && c.manifest.Rec? && c.outcome.OutcomeRec?
    modifies c`Repr, manifest, outcome`metadata, SlotObjects(outcome.metadata), SlotObjects(c.verification)
    ensures Linked(c, manifest, outcome, verification) && fresh(c.Repr - old(c.Repr)) && old(c.Repr) <= c.Repr
    ensures ChainView(manifest, outcome, verification)
         == LifecycleBroken(old(ChainView(manifest, outcome, verification)), t)
              .(verification := if c.verification.Rec?
                  then MarkLifecycleFailure(old(verification.fields), LifecycleLabel(t))
                                else old(verification.fields))
    ensures c.View() == WithChain(old(c.View()), ChainView(manifest, outcome, verification))
  {
    hide LifecycleLabel, MarkLifecycleFailure, MISMATCHED_LIFECYCLE_HASH, WithChain;
    var metadata := MetadataOf(c, manifest, outcome, verification);
    match t {
      case OutcomeMissing => metadata.fields := metadata.fields - {LifecycleHash};
      case ManifestMissing => manifest.fields := manifest.fields[LifecycleHash := Null];
      case HashMismatch => metadata.fields := metadata.fields[LifecycleHash := MISMATCHED_LIFECYCLE_HASH];
    }
    MarkLifecycleContinuityFailure(c, LifecycleLabel(t));
    WorksView(c, manifest, outcome, verification);
  }

  /** `_tamper_lifecycle_hash_fields`. */
  method TamperLifecycle(h: Digest, c: CaseRecord, t: LifecycleTamper)
    requires c.Valid()
    modifies c.Repr
    ensures c.Valid() && fresh(c.Repr - old(c.Repr)) && old(c.Repr) <= c.Repr
    ensures c.View() == ApplyLifecycleTamper(h, old(c.View()), t)
  {
    hide LifecycleLabel, MarkLifecycleFailure, CommitSafety, Recompute, LifecycleBroken, ChainOf;
    if c.manifest.NotRecord? || c.outcome.NotOutcome? { return; }
    ghost var before := c.View();
    var manifest, outcome, verification := WorkingSections(c);
    BreakLifecycle(c, manifest, outcome, verification, t);
    if c.verification.Rec? {
      BrokenVerification(ChainOf(before), t);
      BlockAndRehash(h, c, manifest, outcome, verification, LifecycleLabel(t).reason, true);
    } else {
      CommitSafetyFields(c, LifecycleLabel(t).reason);
    }
  }

  lemma BrokenVerification(chain: Chain, t: LifecycleTamper)
    ensures LifecycleBroken(chain, t).verification == MarkLifecycleFailure(chain.verification, LifecycleLabel(t))
  {
    hide MarkLifecycleFailure, LifecycleLabel, TamperManifest, TamperMetadata, FieldsOr;
  }

  /** Replaces one field of the summary and reports the failure. */
  method BreakVerifier(c: CaseRecord, manifest: Record, outcome: OutcomeRecord, verification: Record, t: VerifierTamper)
    requires Works(c, manifest, outcome, verification) && c.summary.Rec?
    modifies c.summary.r, SlotObjects(c.verification)
    ensures Linked(c, manifest, outcome, verification)
    ensures ChainView(manifest, outcome, verification) == VerifierMarked(old(c.View()), t)
    ensures var tampered := old(c.summary.r.fields)[TamperedField(t) := TamperedValue(t)];
            c.View() == WithChain(old(c.View()).(summary := Dictionary(tampered)),
                ChainView(manifest, outcome, verification))
  {
    hide VerifierLabel, MarkFailure, TamperedField, TamperedValue, WithChain;
    c.summary.r.fields := c.summary.r.fields[TamperedField(t) := TamperedValue(t)];
    MarkVerifierContinuityFailure(c, VerifierLabel(t));
    WorksView(c, manifest, outcome, verification);
  }

  method BlockAndRehash(h: Digest, c: CaseRecord, manifest: Record, outcome: OutcomeRecord, verification: Record,
                        reason: string, includeProofLink: bool)
    requires Linked(c, manifest, outcome, verification)
    modifies c`fields, manifest, outcome`fields, verification
    ensures c.Valid()
    ensures c.View() == WithChain(old(c.View()).(fields := CommitSafety(old(c.fields), reason)),
                                  Recompute(h, old(ChainView(manifest, outcome, verification)), includeProofLink))
  {
    hide CommitSafety, Recompute, WithChain;
    CommitSafetyFields(c, reason);
    RecomputeNestedHashes(h, manifest, outcome, verification, includeProofLink);
    WorksView(c, manifest, outcome, verification);
  }

  /** `_tamper_verifier_continuity_fields`. */
  method TamperVerifier(h: Digest, c: CaseRecord, t: VerifierTamper)
    requires c.Valid()
    modifies c.Repr
    ensures c.Valid() && c.Repr == old(c.Repr)
    ensures c.View() == ApplyVerifierTamper(h, old(c.View()), t)
  {
    hide VerifierLabel, VerifierMarked, CommitSafety, Recompute, TamperedField, TamperedValue, ChainOf, WithChain;
    if c.summary.NotRecord? { return; }
    ghost var before := c.View();
    var manifest, outcome, verification := WorkingSections(c);
    BreakVerifier(c, manifest, outcome, verification, t);
    BlockAndRehash(h, c, manifest, outcome, verification, VerifierLabel(t).reason, !t.ProofMismatch?);
    ghost var marked := VerifierMarked(before, t);
    LastChainWins(before.(summary := Dictionary(before.summary.fields[TamperedField(t) := TamperedValue(t)])), marked,
                  CommitSafety(before.fields, VerifierLabel(t).reason), Recompute(h, marked, !t.ProofMismatch?));
  }

  method RelabelledCopy(source: CaseRecord, tag: Label) returns (c: CaseRecord)
    requires source.Valid()
    ensures c.Valid() && fresh(c.Repr)
    ensures c.View() == source.View().(fields := Relabel(source.View().fields, tag))
  {
    hide Relabel;
    c := DeepCopy(source);
    c.fields := Relabel(c.fields, tag);
  }

  method LifecycleTamperedCopy(h: Digest, source: CaseRecord, t: LifecycleTamper) returns (c: CaseRecord)
    requires source.Valid()
    ensures c.Valid() && fresh(c.Repr) && c.View() == LifecycleTampered(h, source.View(), t)
  {
    hide LifecycleLabel, Relabel, ApplyLifecycleTamper, CaseRecord.Valid, CaseRecord.View;
    c := RelabelledCopy(source, LifecycleLabel(t));
    TamperLifecycle(h, c, t);
  }

  method VerifierTamperedCopy(h: Digest, source: CaseRecord, t: VerifierTamper) returns (c: CaseRecord)
    requires source.Valid()
    ensures c.Valid() && fresh(c.Repr) && c.View() == VerifierTampered(h, source.View(), t)
  {
    hide VerifierLabel, Relabel, ApplyVerifierTamper, CaseRecord.Valid, CaseRecord.View;
    c := RelabelledCopy(source, VerifierLabel(t));
    TamperVerifier(h, c, t);
  }

  // ---------------------------------------------------------------- the packet

  datatype Entry = CaseEntry(c: CaseRecord) | OtherEntry(value: Value)

  ghost function EntryObjects(e: Entry): set<object>
    reads if e.CaseEntry? then {e.c} else {}
  {
    if e.CaseEntry? then e.c.Repr else {}
  }

  ghost predicate EntryValid(e: Entry)
    reads if e.CaseEntry? then {e.c} else {}
    reads EntryObjects(e)
  {
    e.CaseEntry? ==> e.c.Valid()
  }

  function EntryView(e: Entry): Item
    requires EntryValid(e)
    reads if e.CaseEntry? then {e.c} else {}
    reads EntryObjects(e)
  {
    match e
    case CaseEntry(c) => CaseItem(c.View())
    case OtherEntry(v) => OtherItem(v)
  }

  /** The packet: its entries, and the list under "cases" if that is a list. */
  class PacketRecord {
    var fields: Dict
    var hasCases: bool
    var items: seq<Entry>
    ghost var Repr: set<object>

    ghost predicate Owns(e: Entry)
      reads this, Repr
    {
      e.CaseEntry? ==> e.c in Repr && e.c in e.c.Repr && e.c.Repr <= Repr && this !in e.c.Repr && e.c.Valid()
    }

    /** No record belongs to two cases. */
    ghost predicate Valid()
      reads this, Repr
    {
      && this in Repr
      && (forall k :: 0 <= k < |items| ==> Owns(items[k]))
      && (forall j, k :: 0 <= j < k < |items| && items[j].CaseEntry? && items[k].CaseEntry? ==>
          items[j].c.Repr !! items[k].c.Repr)
    }

    function Items(): (r: seq<Item>)
      requires Valid()
      reads this, Repr
      ensures |r| == |items| && forall k :: 0 <= k < |items| ==> r[k] == EntryView(items[k])
    {
      seq(|items|, k requires 0 <= k < |items| && Valid() reads this, Repr => EntryView(items[k]))
    }

    function View(): Packet
      requires Valid()
      reads this, Repr
    {
      Packet(fields, hasCases, Items())
    }

    /** `_ensure_human_approval_context_binding`. */
    method BindContexts()
      requires Valid()
      modifies Repr
      ensures Valid() && Repr == old(Repr) && fields == old(fields) && hasCases == old(hasCases) && items == old(items)
      ensures Items() == if hasCases then EachCase(BindContext, old(Items())) else old(Items())
    {
      hide BindContext, CaseRecord.Valid, CaseRecord.View;
      if !hasCases { return; }
      var i := 0;
      while i < |items|
        invariant 0 <= i <= |items| && Valid() && Repr == old(Repr) && fields == old(fields) && hasCases
            && items == old(items)
        invariant forall k :: 0 <= k < i ==> EntryView(items[k]) == EachCase(BindContext, old(Items()))[k]
        invariant forall k :: i <= k < |items| ==> EntryView(items[k]) == old(Items())[k]
      {
        if items[i].CaseEntry? { BindCaseContext(items[i].c); }
        i := i + 1;
      }
    }

    method EnsureEntryEvidence(h: Digest, life: Lifecycle, i: nat)
      requires Valid() && i < |items|
      modifies Repr
      ensures Valid() && fresh(Repr - old(Repr)) && fields == old(fields) && hasCases == old(hasCases)
          && items == old(items)
      ensures Items() == old(Items())[i := OneCase(EvidencePass(h, life, Get(fields, GeneratedAt)), old(Items())[i])]
    {
      hide EnsureEvidence, Get, CaseRecord.Valid, CaseRecord.View;
      if items[i].CaseEntry? {
        var c := items[i].c;
        EnsureCaseEvidence(h, life, Get(fields, GeneratedAt), c);
        Repr := Repr + c.Repr;
      }
    }

    /** `_ensure_human_approval_verifier_evidence`. */
    method EnsureVerifierEvidence(h: Digest, life: Lifecycle)
      requires Valid()
      modifies Repr
      ensures Valid() && fresh(Repr - old(Repr)) && fields == old(fields) && hasCases == old(hasCases)
          && items == old(items)
      ensures Items() == if hasCases then EachCase(EvidencePass(h, life, Get(fields, GeneratedAt)), old(Items()))
          else old(Items())
    {
      hide *;
      if !hasCases { return; }
      ghost var pass := EvidencePass(h, life, Get(fields, GeneratedAt));
      OneMoreCase(pass, Items(), 0);
      var i := 0;
      while i < |items|
        invariant 0 <= i <= |items| && Valid() && fresh(Repr - old(Repr)) && fields == old(fields) && hasCases
            && items == old(items)
        invariant Items() == EachCase(pass, old(Items()))[..i] + old(Items())[i..]
      {
        OneMoreCase(pass, old(Items()), i);
        EnsureEntryEvidence(h, life, i);
        i := i + 1;
      }
    }

    /** The first case with the source's identifier. */
    method FindSourceCase() returns (source: Option<CaseRecord>)
      requires Valid()
      ensures FindSource(Items()) ==
              match source
              case Some(c) => if c.Valid() then Some(c.View()) else None
              case None => None
      ensures source.Some? ==> CaseEntry(source.value) in items && source.value.Valid() && this !in source.value.Repr
    {
      var i := 0;
      while i < |items|
        invariant 0 <= i <= |items|
        invariant forall k :: 0 <= k < i ==> !IsSource(Items()[k])
      {
        if items[i].CaseEntry? && Get(items[i].c.fields, CaseId) == SOURCE_CASE_ID {
          FindSourceAt(Items(), i);
          return Some(items[i].c);
        }
        i := i + 1;
      }
      FindSourceAt(Items(), i);
      source := None;
    }

    /** `cases.append(case)`. */
    method Append(c: CaseRecord)
      requires Valid() && c.Valid() && c.Repr !! Repr
      modifies `items, `Repr
      ensures Valid() && items == old(items) + [CaseEntry(c)] && Repr == old(Repr) + c.Repr
      ensures Items() == old(Items()) + [CaseItem(c.View())]
    {
      hide CaseRecord.View;
      items := items + [CaseEntry(c)];
      Repr := Repr + c.Repr;
    }

    /** `_append_lifecycle_tamper_regression_cases`: no record that was there before is touched. */
    method AppendLifecycleTamperCases(h: Digest)
      requires Valid()
      modifies `items, `Repr
      ensures Valid() && fresh(Repr - old(Repr)) && old(items) <= items
      ensures Items() == if hasCases then AppendLifecycleCases(h, old(Items())) else old(Items())
    {
      hide LifecycleCases, FindSource, CaseRecord.Valid, CaseRecord.View, Items;
      if !hasCases { return; }
      var found := FindSourceCase();
      if found.Some? { AppendLifecycleCopies(h, found.value); }
    }

    method AppendLifecycleCopies(h: Digest, source: CaseRecord)
      requires Valid() && source.Valid() && this !in source.Repr
      modifies `items, `Repr
      ensures Valid() && fresh(Repr - old(Repr)) && old(items) <= items
      ensures Items() == old(Items()) + LifecycleCases(h, old(source.View()))
    {
      hide *;
      CasesUpTo(h, source.View(), 0);
      var i := 0;
      while i < |LIFECYCLE_TAMPERS|
        invariant 0 <= i <= |LIFECYCLE_TAMPERS| == 3
        invariant Valid() && fresh(Repr - old(Repr)) && old(items) <= items
        invariant this !in source.Repr && source.Valid() && source.View() == old(source.View())
        invariant Items() == old(Items()) + LifecycleCases(h, old(source.View()))[..i]
      {
        CasesUpTo(h, source.View(), i);
        var c := LifecycleTamperedCopy(h, source, LIFECYCLE_TAMPERS[i]);
        Append(c);
        i := i + 1;
      }
    }

    /** `_append_verifier_continuity_tamper_regression_cases`: no record that was there before is touched. */
    method AppendVerifierTamperCases(h: Digest)
      requires Valid()
      modifies `items, `Repr
      ensures Valid() && fresh(Repr - old(Repr)) && old(items) <= items
      ensures Items() == if hasCases then AppendVerifierCases(h, old(Items())) else old(Items())
    {
      hide VerifierCases, FindSource, CaseRecord.Valid, CaseRecord.View, Items;
      if !hasCases { return; }
      var found := FindSourceCase();
      if found.Some? { AppendVerifierCopies(h, found.value); }
    }

    method AppendVerifierCopies(h: Digest, source: CaseRecord)
      requires Valid() && source.Valid() && this !in source.Repr
      modifies `items, `Repr
      ensures Valid() && fresh(Repr - old(Repr)) && old(items) <= items
      ensures Items() == old(Items()) + VerifierCases(h, old(source.View()))
    {
      hide *;
      CasesUpTo(h, source.View(), 0);
      var i := 0;
      while i < |VERIFIER_TAMPERS|
        invariant 0 <= i <= |VERIFIER_TAMPERS| == 5
        invariant Valid() && fresh(Repr - old(Repr)) && old(items) <= items
        invariant this !in source.Repr && source.Valid() && source.View() == old(source.View())
        invariant Items() == old(Items()) + VerifierCases(h, old(source.View()))[..i]
      {
        CasesUpTo(h, source.View(), i);
        var c := VerifierTamperedCopy(h, source, VERIFIER_TAMPERS[i]);
        Append(c);
        i := i + 1;
      }
    }

    /** `_packet_hash`: the payload is copied from the records, one case after the other.  The result is the digest of
        the packet whatever stands under "packet_hash". */
    method Digest(h: Digest) returns (hash: Value)
      requires Valid()
      ensures hash == PacketDigest(h, View())
      ensures forall p: Packet :: SameButHash(p, View()) ==> hash == PacketDigest(h, p)
    {
      hide SameButHash, CaseRecord.Valid, CaseRecord.View, CaseValue, PacketDigest;
      var copies: seq<Value> := [];
      var i := 0;
      while i < |items|
        invariant 0 <= i <= |items| && |copies| == i
        invariant forall k :: 0 <= k < i ==> copies[k] == ItemValue(Items()[k])
      {
        match items[i] {
          case CaseEntry(c) =>
            var copied := CopyCase(c);
            copies := copies + [copied];
          case OtherEntry(v) =>
            copies := copies + [v];
        }
        i := i + 1;
      }
      assert copies == ItemValues(Items());
      var payload := fields;
      if hasCases { payload := payload[Cases := Arr(copies)]; }
      payload := payload - {PacketHash};
      hash := Str(h(Obj(payload)));
      DigestOfPayload(h, View(), payload);
      forall p: Packet | SameButHash(p, View()) ensures hash == PacketDigest(h, p) {
        PacketDigestIgnoresStoredHash(h, p, View());
      }
    }

    method PrepareCases(h: Digest, life: Lifecycle)
      requires Valid()
      modifies Repr
      ensures Valid() && fresh(Repr - old(Repr)) && old(items) <= items && fields == old(fields)
          && hasCases == old(hasCases)
      ensures Items() == FinalItems(h, life, old(View()))
    {
      hide EachCase, EvidencePass, AppendLifecycleCases, AppendVerifierCases, CaseRecord.Valid, CaseRecord.View, Get;
      BindContexts();
      EnsureVerifierEvidence(h, life);
      AppendLifecycleTamperCases(h);
      AppendVerifierTamperCases(h);
    }

    method Publish(p: Publication)
      requires Valid()
      modifies `fields
      ensures Valid() && fields == Published(old(fields), p) && Items() == old(Items())
    {
      hide CaseRecord.Valid, CaseRecord.View;
      var d := fields;
      d := d[DemoId := Str("evaluation_governance_offline_chain_reviewer_packet_v1")];
      d := d[GeneratedAt := p.issuedAt];
      d := d[Title := Str("Evaluation Governance Offline Chain Reviewer Evidence Packet")];
      d := d[SummaryText := p.summary];
      d := d[BoundaryNote := BOUNDARY_NOTE];
      d := d[LocalOfflineOnly := Bool(true)];
      d := SetDefault(d, GovernanceArtifacts, p.artifacts);
      d := d[KeyProvenance := p.keyProvenance];
      d := d[ReviewerNotes := p.notes];
      fields := d;
    }

    method StoreHash(hash: Value)
      requires Valid()
      modifies `fields
      ensures Valid() && fields == old(fields)[PacketHash := hash] && Items() == old(Items())
    {
      hide CaseRecord.Valid, CaseRecord.View;
      fields := fields[PacketHash := hash];
    }

    /** `generate_reviewer_evidence_packet_from_chain`, on the packet read from the template. */
    method Generate(h: Digest, life: Lifecycle, p: Publication)
      requires Valid()
      modifies Repr
      ensures Valid() && fresh(Repr - old(Repr)) && old(items) <= items
      ensures View() == Generated(h, life, old(View()), p)
      ensures Get(fields, PacketHash) == PacketDigest(h, View())
    {
      hide SameButHash, FinalItems, PacketDigest, Published, CaseRecord.Valid, CaseRecord.View, Get, Items;
      PacketHashCoversPacket(h, life, View(), p);
      PrepareCases(h, life);
      Publish(p);
      var hash := Digest(h);
      StoreHash(hash);
    }
  }
}
