/** The reviewer packet as it is published: what its hashes cover in the JSON a reader receives, and what its eight
    tamper cases look like, in terms of nothing but its entries. */
module PublishedPacket {
  import opened EvidenceChain
  import opened Optional
  import opened PreparedCases

  // ---------------------------------------------------------------- hashes of the published JSON

  /** The object under a key of a JSON object. */
  ghost predicate HasObject(v: Value, f: Field, d: Dict) { v.Obj? && f in v.fields && v.fields[f] == Obj(d) }

  /** The hashes of a published case: that of the outcome receipt covers the receipt, the manifest has it and covers
      itself with its own, and the verification summary has that one. */
  ghost predicate HashedCase(h: Digest, v: Value) {
    exists manifest, outcome, verification ::
      && HasObject(v, ManifestSummary, manifest) && HasObject(v, OutcomeSummary, outcome)
      && HasObject(v, VerificationSummary, verification)
      && HashedRecords(h, manifest, outcome, verification)
  }

  ghost predicate HashedRecords(h: Digest, manifest: Dict, outcome: Dict, verification: Dict) {
    && At(outcome, OutcomeHash) == Str(h(Obj(outcome - {OutcomeHash})))
    && At(manifest, OutcomeReceiptHash) == At(outcome, OutcomeHash)
    && At(manifest, ManifestHash) == Str(h(Obj(manifest - {ManifestHash})))
    && At(verification, RecomputedManifestHash) == At(manifest, ManifestHash)
    && At(verification, ManifestHashMatches) == Bool(true)
  }

  /** The receipt as published holds its metadata. */
  lemma ReceiptIsPublished(c: Case)
    requires WellShaped(c)
    ensures HasObject(CaseValue(c), ManifestSummary, c.manifest.fields)
    ensures HasObject(CaseValue(c), VerificationSummary, c.verification.fields)
    ensures HasObject(CaseValue(c), HumanApprovalSummary, c.summary.fields)
    ensures HasObject(CaseValue(c), OutcomeSummary, OutcomeDict(c.outcome.fields, c.outcome.metadata))
    ensures c.outcome.metadata.Dictionary? ==>
        HasObject(Obj(OutcomeDict(c.outcome.fields, c.outcome.metadata)), Metadata, c.outcome.metadata.fields)
    ensures SameBut(OutcomeDict(c.outcome.fields, c.outcome.metadata), c.outcome.fields, {Metadata})
  {
  }

  lemma ConsistentIsHashed(h: Digest, c: Case)
    requires WellShaped(c) && CaseConsistent(h, c)
    ensures HashedCase(h, CaseValue(c))
  {
    ReceiptIsPublished(c);
    hide CaseValue, HasObject;
    var outcome := OutcomeDict(c.outcome.fields, c.outcome.metadata);
    assert At(outcome, OutcomeHash) == Get(c.outcome.fields, OutcomeHash);
    assert HashedRecords(h, c.manifest.fields, outcome, c.verification.fields);
  }

  /** The packet a reader receives: its hash is the digest of all the rest of it, and the hashes inside every
      well-shaped case, original or tampered, are the digests of what they cover. */
  lemma PublishedPacketIsHashed(h: Digest, life: Lifecycle, template: Packet, p: Publication)
    requires template.hasCases
    ensures var r := Generated(h, life, template, p);
            var packet := PacketDict(r);
            && At(packet, PacketHash) == Str(h(Obj(packet - {PacketHash})))
            && At(packet, Cases).Arr? && |At(packet, Cases).items| == |r.items|
            && (forall k :: 0 <= k < |r.items| && r.items[k].CaseItem? && WellShaped(r.items[k].c) ==>
                  At(packet, Cases).items[k] == CaseValue(r.items[k].c) && HashedCase(h, CaseValue(r.items[k].c)))
  {
    var r := Generated(h, life, template, p);
    PacketHashCoversPacket(h, life, template, p);
    GeneratedPacketIsConsistent(h, life, template, p);
    AtIsGet(PacketDict(r));
    CasesArePublished(r);
    hide Generated, CaseConsistent, CaseValue, HashedCase, WellShaped, ItemValues;
    forall k | 0 <= k < |r.items| && r.items[k].CaseItem? && WellShaped(r.items[k].c)
      ensures HashedCase(h, CaseValue(r.items[k].c))
    {
      ConsistentIsHashed(h, r.items[k].c);
    }
  }

  lemma CasesArePublished(p: Packet)
    requires p.hasCases
    ensures At(PacketDict(p), Cases) == Arr(ItemValues(p.items)) && |ItemValues(p.items)| == |p.items|
    ensures forall k :: 0 <= k < |p.items| && p.items[k].CaseItem? ==> ItemValues(p.items)[k] == CaseValue(p.items[k].c)
    ensures At(PacketDict(p), PacketHash) == Get(p.fields, PacketHash)
  {
    hide CaseValue;
  }

  /** What the generator writes over the template's own entries. */
  lemma PublishedHeader(h: Digest, life: Lifecycle, template: Packet, p: Publication)
    ensures var fields := Generated(h, life, template, p).fields;
            && At(fields, DemoId) == Str("evaluation_governance_offline_chain_reviewer_packet_v1")
            && At(fields, GeneratedAt) == p.issuedAt
            && At(fields, Title) == Str("Evaluation Governance Offline Chain Reviewer Evidence Packet")
            && At(fields, SummaryText) == p.summary
            && At(fields, LocalOfflineOnly) == Bool(true)
            && At(fields, GovernanceArtifacts) ==
                 (if GovernanceArtifacts in template.fields then template.fields[GovernanceArtifacts] else p.artifacts)
            && At(fields, KeyProvenance) == p.keyProvenance && At(fields, ReviewerNotes) == p.notes
            && SameBut(fields, template.fields,
                 {DemoId, GeneratedAt, Title, SummaryText, BoundaryNote, LocalOfflineOnly, GovernanceArtifacts,
                  KeyProvenance, ReviewerNotes, PacketHash})
  {
    hide PacketDigest, FinalItems;
  }

  // ---------------------------------------------------------------- the tamper cases

  /** What every tamper case says of itself. */
  ghost predicate Announces(d: Case, source: Case, suffix: string, reason: string, affected: string)
    requires WellShaped(d) && WellShaped(source)
  {
    && At(d.fields, CaseId) == Str("valid_authority_and_approval_" + suffix)
    && At(d.fields, ExpectedOutcome) == Str("block") && At(d.fields, ActualOutcome) == Str("block")
    && At(d.fields, RuntimeRecommendedOutcome) == Str("block") && At(d.fields, Passed) == Bool(true)
    && AddedOnce(ListUnder(source.fields, FailureReasons), Str(reason), At(d.fields, FailureReasons))
    && At(d.verification.fields, IsValid) == Bool(false)
    && At(d.verification.fields, VerificationStatus) == Str("failed")
    && At(d.verification.fields, FailureReasons) == Arr([Str(reason)])
    && At(d.verification.fields, MissingLinks) == Arr([])
    && At(d.verification.fields, MismatchedLinks) == Arr([Str(affected)])
  }

  ghost predicate Repeats(v: Value, c: char) { v.Str? && |v.text| == 64 && forall i :: 0 <= i < 64 ==> v.text[i] == c }

  /** What a lifecycle tamper case says. */
  ghost predicate AnnouncesLifecycleTamper(d: Case, source: Case, t: LifecycleTamper)
    requires WellShaped(d) && WellShaped(source)
  {
    match t
    case OutcomeMissing =>
      Announces(d, source, "lifecycle_snapshot_manifest_hash_outcome_missing",
                "evidence_chain_outcome_lifecycle_snapshot_hash_missing",
                "human_approval_verifier_lifecycle_snapshot_hash")
    case ManifestMissing =>
      Announces(d, source, "lifecycle_snapshot_outcome_hash_manifest_missing",
                "evidence_chain_manifest_lifecycle_snapshot_hash_missing",
                "human_approval_verifier_lifecycle_snapshot_hash")
    case HashMismatch =>
      Announces(d, source, "lifecycle_snapshot_hash_mismatch", "evidence_chain_lifecycle_snapshot_hash_mismatch",
                "human_approval_verifier_lifecycle_snapshot_hash")
  }

  /** What a lifecycle tamper case shows: the hash is gone from one side or differs. */
  ghost predicate ShowsLifecycleTamper(manifest: Dict, metadata: Dict, source: Case, t: LifecycleTamper)
    requires WellShaped(source)
  {
    match t
    case OutcomeMissing =>
      LifecycleHash !in metadata && At(manifest, LifecycleHash) == At(source.manifest.fields, LifecycleHash)
    case ManifestMissing =>
      && At(metadata, LifecycleHash) == At(MetadataAt(source), LifecycleHash)
      && LifecycleHash in manifest && manifest[LifecycleHash] == Null
    case HashMismatch =>
      && Repeats(At(metadata, LifecycleHash), '2')
      && At(manifest, LifecycleHash) == At(source.manifest.fields, LifecycleHash)
  }

  /** What a verifier tamper case says. */
  ghost predicate AnnouncesVerifierTamper(d: Case, source: Case, t: VerifierTamper)
    requires WellShaped(d) && WellShaped(source)
  {
    match t
    case IdMismatch =>
      Announces(d, source, "verifier_id_mismatch", "reviewer_packet_verifier_id_mismatch",
                "human_approval_verifier_id")
    case KeyMismatch =>
      Announces(d, source, "verifier_key_id_mismatch", "reviewer_packet_verifier_key_id_mismatch",
                "human_approval_verifier_key_id")
    case PolicyHashMismatch =>
      Announces(d, source, "verifier_policy_hash_mismatch", "reviewer_packet_verifier_policy_hash_mismatch",
                "human_approval_verifier_policy_hash")
    case ProofMismatch =>
      Announces(d, source, "verification_proof_hash_mismatch", "reviewer_packet_verification_proof_hash_mismatch",
                "verification_proof_hash")
    case VerifiedAtMismatch =>
      Announces(d, source, "verified_at_mismatch", "reviewer_packet_verified_at_mismatch", "verified_at")
  }

  /** What a verifier tamper case shows: one field of the summary differs. */
  ghost predicate ShowsVerifierTamper(summary: Dict, source: Dict, t: VerifierTamper) {
    match t
    case IdMismatch =>
      && SameBut(summary, source, {VerifierId})
      && At(summary, VerifierId) == Str("tampered-human-approval-verifier-v1")
    case KeyMismatch =>
      && SameBut(summary, source, {VerifierKeyId})
      && At(summary, VerifierKeyId) == Str("tampered-local-demo-verifier-key")
    case PolicyHashMismatch =>
      SameBut(summary, source, {VerifierPolicyHash}) && Repeats(At(summary, VerifierPolicyHash), '3')
    case ProofMismatch =>
      SameBut(summary, source, {VerificationProofHash}) && Repeats(At(summary, VerificationProofHash), '3')
    case VerifiedAtMismatch =>
      SameBut(summary, source, {VerifiedAt}) && At(summary, VerifiedAt) == Str("2027-01-01T00:00:00+00:00")
  }

  ghost predicate IsNamed(fields: Dict) { At(fields, CaseId) == Str("valid_authority_and_approval") }

  lemma LabelsWritten(fields: Dict, tag: Label)
    requires IsNamed(fields)
    ensures var d := Labelled(fields, tag);
            && At(d, CaseId) == Str("valid_authority_and_approval_" + tag.suffix)
            && At(d, ExpectedOutcome) == Str("block") && At(d, ActualOutcome) == Str("block")
            && At(d, RuntimeRecommendedOutcome) == Str("block") && At(d, Passed) == Bool(true)
            && AddedOnce(ListUnder(fields, FailureReasons), Str(tag.reason), At(d, FailureReasons))
  {
    hide TAMPER_NOTE;
    assert "valid_authority_and_approval" + "_" == "valid_authority_and_approval_";
  }

  ghost predicate Marked(v: Dict, tag: Label) {
    && At(v, IsValid) == Bool(false) && At(v, VerificationStatus) == Str("failed")
    && At(v, FailureReasons) == Arr([Str(tag.reason)])
    && At(v, MissingLinks) == Arr([]) && At(v, MismatchedLinks) == Arr([Str(tag.affected)])
  }

  lemma MarksWritten(v: Dict, tag: Label)
    ensures Marked(MarkFailure(v, tag), tag) && Marked(MarkLifecycleFailure(v, tag), tag)
  {
    hide WithoutValue, LIFECYCLE_FIELD_NAME;
  }

  lemma MarksStay(v: Dict, w: Dict, tag: Label)
    requires Marked(v, tag) && SameExcept(w, v, RECOMPUTED_REPORT)
    ensures Marked(w, tag)
  {
    SameButIffExcept(w, v, RECOMPUTED_REPORT);
    hide At, SameExcept;
  }

  lemma Announced(d: Case, source: Case, tag: Label)
    requires WellShaped(d) && WellShaped(source) && IsNamed(source.fields)
    requires d.fields == Labelled(source.fields, tag) && Marked(d.verification.fields, tag)
    ensures Announces(d, source, tag.suffix, tag.reason, tag.affected)
  {
    LabelsWritten(source.fields, tag);
    hide Labelled, At, AddedOnce, IsNamed;
  }

  lemma LifecycleTamperAnnounces(h: Digest, source: Case, t: LifecycleTamper)
    requires WellShaped(source) && IsNamed(source.fields)
    ensures var d := LifecycleTampered(h, source, t);
            && WellShaped(d)
            && Announces(d, source, LifecycleLabel(t).suffix, LifecycleLabel(t).reason, LifecycleLabel(t).affected)
            && ChainOf(d) == Recompute(h, LifecycleBroken(ChainOf(source), t), true)
  {
    hide LifecycleTampered, VerifierTampered, LifecycleLabel, VerifierLabel, Recompute, Labelled, Marked, IsNamed, At,
         AddedOnce, MarkLifecycleFailure, MarkFailure, VerifierMarked, TamperedField, TamperedValue, SameExcept,
         TamperManifest, TamperMetadata, Announces;
    var tag := LifecycleLabel(t);
    var broken := LifecycleBroken(ChainOf(source), t);
    TamperedParts(h, source, t, IdMismatch);
    RecomputeKeeps(h, broken, true);
    MarksWritten(ChainOf(source).verification, tag);
    var d := LifecycleTampered(h, source, t);
    assert d.verification.fields == Recompute(h, broken, true).verification;
    MarksStay(broken.verification, d.verification.fields, tag);
    Announced(d, source, tag);
  }

  lemma VerifierTamperAnnounces(h: Digest, source: Case, t: VerifierTamper)
    requires WellShaped(source) && IsNamed(source.fields)
    ensures var d := VerifierTampered(h, source, t);
            && WellShaped(d)
            && Announces(d, source, VerifierLabel(t).suffix, VerifierLabel(t).reason, VerifierLabel(t).affected)
            && d.summary.fields == source.summary.fields[TamperedField(t) := TamperedValue(t)]
  {
    hide LifecycleTampered, VerifierTampered, LifecycleLabel, VerifierLabel, Recompute, Labelled, Marked, IsNamed, At,
         AddedOnce, MarkLifecycleFailure, MarkFailure, LifecycleBroken, TamperedField, TamperedValue, SameExcept,
         Announces;
    var tag := VerifierLabel(t);
    var marked := VerifierMarked(source, t);
    TamperedParts(h, source, OutcomeMissing, t);
    RecomputeKeeps(h, marked, !t.ProofMismatch?);
    MarksWritten(ChainOf(source).verification, tag);
    var d := VerifierTampered(h, source, t);
    assert d.verification.fields == Recompute(h, marked, !t.ProofMismatch?).verification;
    MarksStay(marked.verification, d.verification.fields, tag);
    Announced(d, source, tag);
  }

  lemma LifecycleLabelsAre(d: Case, source: Case, t: LifecycleTamper)
    requires WellShaped(d) && WellShaped(source)
    requires Announces(d, source, LifecycleLabel(t).suffix, LifecycleLabel(t).reason, LifecycleLabel(t).affected)
    ensures AnnouncesLifecycleTamper(d, source, t)
  {
    hide Announces;
  }

  lemma VerifierLabelsAre(d: Case, source: Case, t: VerifierTamper)
    requires WellShaped(d) && WellShaped(source)
    requires Announces(d, source, VerifierLabel(t).suffix, VerifierLabel(t).reason, VerifierLabel(t).affected)
    ensures AnnouncesVerifierTamper(d, source, t)
  {
    hide Announces;
  }

  /** Each lifecycle tamper is announced and shows as it should. */
  lemma LifecycleTamperIsShown(h: Digest, source: Case, t: LifecycleTamper)
    requires WellShaped(source) && IsNamed(source.fields)
    ensures var d := LifecycleTampered(h, source, t);
            && WellShaped(d) && AnnouncesLifecycleTamper(d, source, t)
            && ShowsLifecycleTamper(d.manifest.fields, MetadataAt(d), source, t)
  {
    hide *;
    LifecycleTamperAnnounces(h, source, t);
    var d := LifecycleTampered(h, source, t);
    var broken := LifecycleBroken(ChainOf(source), t);
    RecomputeKeeps(h, broken, true);
    LifecycleBrokenShows(source, t);
    LifecycleLabelsAre(d, source, t);
    ChainHolds(d);
    MetadataHeld(broken.metadata);
    StillShows(d.manifest.fields, broken.manifest, MetadataAt(d), source, t);
  }

  lemma ChainHolds(d: Case)
    requires WellShaped(d)
    ensures d.manifest.Dictionary? && d.outcome.Outcome?
    ensures ChainOf(d).manifest == d.manifest.fields && FieldsOr(ChainOf(d).metadata) == MetadataAt(d)
  {
  }

  lemma MetadataHeld(s: Section)
    ensures s.Dictionary? ==> FieldsOr(s) == s.fields
  {
  }

  lemma StillShows(manifest: Dict, before: Dict, metadata: Dict, source: Case, t: LifecycleTamper)
    requires WellShaped(source)
    requires SameExcept(manifest, before, {OutcomeReceiptHash, ManifestHash})
    requires ShowsLifecycleTamper(before, metadata, source, t)
    ensures ShowsLifecycleTamper(manifest, metadata, source, t)
  {
    SameButIffExcept(manifest, before, {OutcomeReceiptHash, ManifestHash});
    hide Repeats, SameExcept;
  }

  lemma LifecycleBrokenShows(source: Case, t: LifecycleTamper)
    requires WellShaped(source)
    ensures var b := LifecycleBroken(ChainOf(source), t);
            b.metadata.Dictionary? && ShowsLifecycleTamper(b.manifest, b.metadata.fields, source, t)
  {
    hide MarkLifecycleFailure, LifecycleLabel;
  }

  /** Each verifier tamper is announced and shows as it should. */
  lemma VerifierTamperIsShown(h: Digest, source: Case, t: VerifierTamper)
    requires WellShaped(source) && IsNamed(source.fields)
    ensures var d := VerifierTampered(h, source, t);
            && WellShaped(d) && AnnouncesVerifierTamper(d, source, t)
            && ShowsVerifierTamper(d.summary.fields, source.summary.fields, t)
  {
    VerifierTamperAnnounces(h, source, t);
    var d := VerifierTampered(h, source, t);
    TamperIsWritten(source.summary.fields, t);
    VerifierLabelsAre(d, source, t);
    hide *;
  }

  lemma TamperIsWritten(s: Dict, t: VerifierTamper)
    ensures ShowsVerifierTamper(s[TamperedField(t) := TamperedValue(t)], s, t)
  {
  }

  lemma {:induction false} WithoutMembers(items: seq<Value>, x: Value)
    ensures forall y :: y in WithoutValue(items, x) <==> y in items && y != x
  {
    if items != [] {
      assert items == [items[0]] + items[1..];
      WithoutMembers(items[1..], x);
    }
  }

  /** What recomputing with the proof link leaves of the verification summary. */
  lemma RecomputedLinks(h: Digest, c: Chain, includeProofLink: bool)
    ensures var r, before := Recompute(h, c, includeProofLink).verification, ListUnder(c.verification, VerifiedLinks);
            if includeProofLink
            then AddedOnce(before, Str("verified_human_approval_proof_hash"), At(r, VerifiedLinks))
            else At(r, VerifiedLinks) == before
  {
    hide OutcomeDigest, ManifestDigest;
  }

  lemma MarkedLinks(v: Dict, tag: Label)
    ensures VerifiedLinks in v <==> VerifiedLinks in MarkLifecycleFailure(v, tag)
    ensures var before, after := ListUnder(v, VerifiedLinks), ListUnder(MarkLifecycleFailure(v, tag), VerifiedLinks);
            if !before.Arr? then after == before
            else after.Arr? && forall y :: y in after.items <==>
              y in before.items && y != Str("human_approval_verifier_lifecycle_snapshot_hash_continuity")
    ensures var d := MarkLifecycleFailure(v, tag);
            && At(d, LifecycleContinuityVerified) == Bool(false)
            && At(d, LifecycleContinuityFailureReasons) == Arr([Str(tag.reason)])
    ensures ListUnder(MarkFailure(v, tag), VerifiedLinks) == ListUnder(v, VerifiedLinks)
  {
    var name := "human_approval_verifier_lifecycle_snapshot_hash_continuity";
    assert LIFECYCLE_FIELD_NAME + "_continuity" == name;
    var before := ListUnder(v, VerifiedLinks);
    if before.Arr? { WithoutMembers(before.items, Str(name)); }
    hide WithoutValue, LIFECYCLE_FIELD_NAME;
  }

  /** A lifecycle tamper takes the continuity link off the list of verified links and withdraws the continuity claim;
      it leaves the proof link on the list, or adds it. */
  lemma LifecycleTamperLinks(h: Digest, source: Case, t: LifecycleTamper)
    requires WellShaped(source)
    ensures var d := LifecycleTampered(h, source, t);
            && WellShaped(d)
            && At(d.verification.fields, LifecycleContinuityVerified) == Bool(false)
            && At(d.verification.fields, LifecycleContinuityFailureReasons) == Arr([Str(LifecycleLabel(t).reason)])
            && var before := ListUnder(source.verification.fields, VerifiedLinks);
               var after := At(d.verification.fields, VerifiedLinks);
               if !before.Arr? then after == before
               else after.Arr? && forall y :: y in after.items <==>
                 || y == Str("verified_human_approval_proof_hash")
                 || (y in before.items && y != Str("human_approval_verifier_lifecycle_snapshot_hash_continuity"))
  {
    hide LifecycleTampered, VerifierTampered, LifecycleLabel, VerifierLabel, Recompute, Labelled, MarkLifecycleFailure,
         MarkFailure, VerifierMarked, TamperedField, TamperedValue, SameExcept, TamperManifest, TamperMetadata, At,
         ListUnder;
    var tag := LifecycleLabel(t);
    var broken := LifecycleBroken(ChainOf(source), t);
    TamperedParts(h, source, t, IdMismatch);
    MarkedLinks(source.verification.fields, tag);
    RecomputedLinks(h, broken, true);
    var d := LifecycleTampered(h, source, t);
    assert d.verification.fields == Recompute(h, broken, true).verification;
    assert broken.verification == MarkLifecycleFailure(source.verification.fields, tag);
    RecomputeKeeps(h, broken, true);
    SameButIffExcept(d.verification.fields, broken.verification, RECOMPUTED_REPORT);
  }

  /** A verifier tamper leaves the proof link on the list of verified links, or adds it, unless it is the proof that
      is tampered with: then it leaves the list as it is. */
  lemma VerifierTamperLinks(h: Digest, source: Case, t: VerifierTamper)
    requires WellShaped(source)
    ensures var d := VerifierTampered(h, source, t);
            && WellShaped(d)
            && var before, after := ListUnder(source.verification.fields, VerifiedLinks),
                                    At(d.verification.fields, VerifiedLinks);
               if t.ProofMismatch? then after == before
               else AddedOnce(before, Str("verified_human_approval_proof_hash"), after)
  {
    hide LifecycleTampered, VerifierTampered, LifecycleLabel, VerifierLabel, Recompute, Labelled, MarkLifecycleFailure,
         MarkFailure, LifecycleBroken, TamperedField, TamperedValue, AddedOnce, At, ListUnder;
    var marked := VerifierMarked(source, t);
    TamperedParts(h, source, OutcomeMissing, t);
    MarkedLinks(source.verification.fields, VerifierLabel(t));
    RecomputedLinks(h, marked, !t.ProofMismatch?);
    var d := VerifierTampered(h, source, t);
    assert d.verification.fields == Recompute(h, marked, !t.ProofMismatch?).verification;
  }

  // ---------------------------------------------------------------- the eight cases of the packet

  ghost predicate IsLifecycleCase(i: Item, source: Case, t: LifecycleTamper)
    requires WellShaped(source)
  {
    && i.CaseItem? && WellShaped(i.c) && AnnouncesLifecycleTamper(i.c, source, t)
    && ShowsLifecycleTamper(i.c.manifest.fields, MetadataAt(i.c), source, t)
  }

  ghost predicate IsVerifierCase(i: Item, source: Case, t: VerifierTamper)
    requires WellShaped(source)
  {
    && i.CaseItem? && WellShaped(i.c) && AnnouncesVerifierTamper(i.c, source, t)
    && ShowsVerifierTamper(i.c.summary.fields, source.summary.fields, t)
  }

  ghost predicate AreTampers(added: seq<Item>, source: Case)
    requires WellShaped(source)
  {
    && |added| == 8
    && IsLifecycleCase(added[0], source, OutcomeMissing)
    && IsLifecycleCase(added[1], source, ManifestMissing)
    && IsLifecycleCase(added[2], source, HashMismatch)
    && IsVerifierCase(added[3], source, IdMismatch)
    && IsVerifierCase(added[4], source, KeyMismatch)
    && IsVerifierCase(added[5], source, PolicyHashMismatch)
    && IsVerifierCase(added[6], source, ProofMismatch)
    && IsVerifierCase(added[7], source, VerifiedAtMismatch)
  }

  /** The packet ends in eight tampers of the first case named "valid_authority_and_approval", as prepared: three of
      the lifecycle hash, then five of the verifier fields, in this order. */
  lemma PacketEndsInTampers(h: Digest, life: Lifecycle, template: Packet, p: Publication, k: nat)
    requires template.hasCases && k < |template.items| && template.items[k].CaseItem? && WellShaped(template.items[k].c)
    requires IsNamed(template.items[k].c.fields)
    requires forall j :: 0 <= j < k && template.items[j].CaseItem? ==> !IsNamed(template.items[j].c.fields)
    ensures var all, n := Generated(h, life, template, p).items, |template.items|;
            && |all| == n + 8 && all[k].CaseItem? && WellShaped(all[k].c)
            && AreTampers(all[n..], all[k].c)
  {
    hide *;
    var source := PreparedCase(h, life, Get(template.fields, GeneratedAt), template.items[k].c);
    PacketShowsClaimsOnly(h, life, template, p, k);
    PacketHoldsPrepared(h, life, template, p, k);
    SourceStands(template.items, k);
    SourceKeepsName(h, life, Get(template.fields, GeneratedAt), template.items[k].c);
    TampersAppended(h, life, template, p);
    TampersAreShown(h, source);
  }

  function Tampers(h: Digest, source: Case): seq<Item> {
    [CaseItem(LifecycleTampered(h, source, OutcomeMissing)), CaseItem(LifecycleTampered(h, source, ManifestMissing)),
     CaseItem(LifecycleTampered(h, source, HashMismatch)), CaseItem(VerifierTampered(h, source, IdMismatch)),
     CaseItem(VerifierTampered(h, source, KeyMismatch)), CaseItem(VerifierTampered(h, source, PolicyHashMismatch)),
     CaseItem(VerifierTampered(h, source, ProofMismatch)), CaseItem(VerifierTampered(h, source, VerifiedAtMismatch))]
  }

  lemma TampersAreShown(h: Digest, source: Case)
    requires WellShaped(source) && IsNamed(source.fields)
    ensures AreTampers(Tampers(h, source), source)
  {
    hide LifecycleTampered, VerifierTampered, IsNamed, WellShaped, IsLifecycleCase, IsVerifierCase;
    LifecycleCaseIsShown(h, source, OutcomeMissing);
    LifecycleCaseIsShown(h, source, ManifestMissing);
    LifecycleCaseIsShown(h, source, HashMismatch);
    VerifierCaseIsShown(h, source, IdMismatch);
    VerifierCaseIsShown(h, source, KeyMismatch);
    VerifierCaseIsShown(h, source, PolicyHashMismatch);
    VerifierCaseIsShown(h, source, ProofMismatch);
    VerifierCaseIsShown(h, source, VerifiedAtMismatch);
  }

  lemma LifecycleCaseIsShown(h: Digest, source: Case, t: LifecycleTamper)
    requires WellShaped(source) && IsNamed(source.fields)
    ensures IsLifecycleCase(CaseItem(LifecycleTampered(h, source, t)), source, t)
  {
    LifecycleTamperIsShown(h, source, t);
    hide LifecycleTampered, AnnouncesLifecycleTamper, ShowsLifecycleTamper, IsNamed;
  }

  lemma VerifierCaseIsShown(h: Digest, source: Case, t: VerifierTamper)
    requires WellShaped(source) && IsNamed(source.fields)
    ensures IsVerifierCase(CaseItem(VerifierTampered(h, source, t)), source, t)
  {
    VerifierTamperIsShown(h, source, t);
    hide VerifierTampered, AnnouncesVerifierTamper, ShowsVerifierTamper, IsNamed;
  }

  lemma SourceStands(items: seq<Item>, k: nat)
    requires k < |items| && items[k].CaseItem? && IsNamed(items[k].c.fields)
    requires forall j :: 0 <= j < k && items[j].CaseItem? ==> !IsNamed(items[j].c.fields)
    ensures FindSource(items) == Some(items[k].c)
  {
    forall j | 0 <= j <= k && items[j].CaseItem? ensures IsSource(items[j]) <==> IsNamed(items[j].c.fields) {
      AtIsGet(items[j].c.fields);
    }
    FindSourceAt(items, k);
  }

  lemma SourceKeepsName(h: Digest, life: Lifecycle, generatedAt: Value, c: Case)
    requires IsNamed(c.fields)
    ensures IsNamed(PreparedCase(h, life, generatedAt, c).fields)
  {
    PreparationKeepsCaseId(h, life, generatedAt, c);
    AtIsGet(c.fields);
    AtIsGet(PreparedCase(h, life, generatedAt, c).fields);
    hide PreparedCase, At, Get;
  }

  lemma TampersAppended(h: Digest, life: Lifecycle, template: Packet, p: Publication)
    requires template.hasCases && FindSource(template.items).Some?
    ensures var all, n := Generated(h, life, template, p).items, |template.items|;
            && |all| == n + 8
            && all[n..] == Tampers(h, PreparedCase(h, life, Get(template.fields, GeneratedAt),
                                                   FindSource(template.items).value))
  {
    hide PreparedCase, LifecycleTampered, VerifierTampered, PreparedItems, Published, FindSource, Get, PacketDigest,
         AppendLifecycleCases, AppendVerifierCases;
    var generatedAt := Get(template.fields, GeneratedAt);
    var prepared := PreparedItems(h, life, generatedAt, template.items);
    SourceIsPrepared(h, life, generatedAt, template.items);
    PreparedLength(h, life, generatedAt, template.items);
    AppendedCases(h, prepared);
    var source := FindSource(prepared).value;
    assert LifecycleCases(h, source) + VerifierCases(h, source) == Tampers(h, source);
  }
}
