# Verification model of VERITAS OS

A Dafny model of the self-contained runtime logic of VERITAS OS: the browser-side event stream, the retrying API
client, the offline governance artifact chain (receipts, attribution, drift detection, reviewer evidence packet), the
legitimacy review, the import-boundary checker, and the benchmark statistics.

What each module is about:

- `ManagedSse`: the reconnect protocol of one managed EventSource. Every callback is one atomic step of a state machine;
  `ManagedSse.ManagedStream` is the closure whose methods perform those steps. Results hold after every interleaving of
  probe results, timers, EventSource events, stop calls, and stop calls made from inside user callbacks.
- `FrameParser` and `LiveFeed`: the chunked frame parser, the feed of at most forty events, and the list shown.
- `EvidenceChain` and `EvidencePacket`: the reviewer evidence packet. `EvidencePacket` holds cases as mutable records that
  refer to each other and updates them in place; each of its methods is proved against a function of `EvidenceChain`, where
  the properties of the hash chain are proved. The digest is a parameter, and nothing is assumed of it.
- `PreparedCases` and `PublishedPacket`: the same packet by the entries of its records alone: which cases claim a verified
  approval and what they are given, what the hashes in the published JSON cover, and what the eight tamper cases look like.
- `OutcomeDelta` and `DriftDetection`: comparing two evaluation receipts, classifying the result, and both together.
  `ReceiptReasons` says what a comparison reports by the keys of the receipts alone.
- `TextSanitizer`, `RetryingFetch`, `Percentiles`, `LegitimacyReview`, `AuditLinks`: one algorithm each.
- `BoundaryChecker` and `DocBullets`: the import-boundary checker and the way it reads the architecture document.
- `Orders`, `Lists`, `Text`, `Numbers`, `Optional`, `Json`: shared vocabulary (sorting, filtering, trimming, JSON values).

`dafny verify dfyconfig.toml` checks the whole project.

## Where the code is not what one would expect

- `ManagedSse.StopInsideAcceptanceLeaks`: a stop call made inside the `onAuthPause(null)` of line 115 is followed by the
  construction of an EventSource that stays open. `ManagedSse.StopReleasesEverything` proves that this is the only way in
  which stop can leave something behind, and `ManagedSse.LeakIsClosedBy` that nothing closes it but its own error or another
  stop call.
- `RetryingFetch.TimeoutNeedsAbortName`: a request that times out on every attempt is reported as a timeout exactly if the
  rejection of some attempt is named "AbortError".
- `LegitimacyReview.EmptyIffOnlyUnknown`: the category list of a generated review is empty exactly if strategic drift signals
  are the only evidence, without high-risk scope, and there is an unrecognised flag, a suspicious status or a proposed action;
  the fallback for empty lists never applies. `LegitimacyReview.EmptyListExample` is an input that passes validation. The
  review schema asks for at least one category, so the script's own output validation then refuses the review.
- `DriftDetection.OutcomeFlagsDisagreeIff`: where validation is skipped, which it is only if the `jsonschema` package cannot
  be imported, a receipt may lack its outcome. The two stages then disagree on whether the outcome changed exactly if one
  receipt has no outcome and the other says "undetermined"; `DriftDetection.UnexplainedWithoutOutcomeChange` is an instance.
  On validated receipts they never disagree (`DriftDetection.ValidatedFlagsAgree`).
- `TextSanitizer.CleanIffTextsAreSafe`: an argument that is not a string is rendered and returned without being sanitised.
  Null, undefined, booleans, numbers and plain objects are clean all the same; an array is clean exactly if the texts in it
  are clean one by one and none with a `<` stands before one with a `>`; `TextSanitizer.ArraysAreNotSanitised` has two arrays
  that are not. For an object with a rendering of its own the condition is on the text it renders.

## Model
| member | source | states |
|---|---|---|
| ManagedSse.DelayWindow | frontend/lib/managed-sse.ts:15-23 | Every jittered delay lies within 20% of its base and in [800, 36000] |
| ManagedSse.DelayIsNearest | frontend/lib/managed-sse.ts:15-23 | The delay is the integer nearest to min(1000 * 2^n, 30000) times a factor between 0.8 and 1.2, rounding half up |
| ManagedSse.TotalBaseDelayClosedForm | frontend/lib/managed-sse.ts:15-23 | n base delays add up to 1000(2^n - 1) for n up to 5 and to 31000 + 30000(n - 5) beyond |
| ManagedSse.RunKeepsInv | frontend/lib/managed-sse.ts:36-143 | The invariant (one outstanding activity, consistent books of constructions and backoffs) holds after any sequence of callbacks |
| ManagedSse.ExactlyOneOutstanding | frontend/lib/managed-sse.ts:36-134 | Before stop there is exactly one of pending timer, in-flight probe with the current sequence number, live EventSource; the handles kept are those of the live ones |
| ManagedSse.ConstructionsMatchDisconnections | frontend/lib/managed-sse.ts:52-133 | Over every run, EventSources constructed = onDisconnected calls + 1 if one is live |
| ManagedSse.BackoffSchedule | frontend/lib/managed-sse.ts:88-133 | The n-th backoff since the last success uses base min(1000 * 2^(n-1), 30000), whatever auth pauses lie between |
| ManagedSse.StopReleasesEverything | frontend/lib/managed-sse.ts:111-143 | Stopping leaves no timer and at most one probe, and leaves an EventSource exactly when stop was called inside the acceptance callback |
| ManagedSse.StopInsideAcceptanceLeaks | frontend/lib/managed-sse.ts:111-119 | That exception happens: a disposed stream with an open EventSource |
| ManagedSse.LeakIsClosedBy | frontend/lib/managed-sse.ts:125-143 | What such a stream holds open is closed by the error of that EventSource or by another stop call and by nothing else |
| ManagedSse.QuietAfterStop | frontend/lib/managed-sse.ts:61-143 | From any stopped state without open EventSource, later events, repeated stop calls included, change nothing but the set of in-flight probes and one cleared auth pause per stop call |
| ManagedSse.RunIsQuietAfterStop | frontend/lib/managed-sse.ts:61-143 | Over whole runs that were stopped anywhere but inside the acceptance callback: no timer, EventSource or callback appears again, but for the cleared auth pause of each repeated stop call |
| ManagedSse.NothingStartsAfterStop | frontend/lib/managed-sse.ts:61-143 | Over all stopped runs, stopped inside the acceptance callback too: no timer is armed, no probe sent and no EventSource constructed any more |
| ManagedSse.RefinesPhases | frontend/lib/managed-sse.ts:71-134 | Each callback is one step of a machine with four phases and no sequence numbers, handles or guards: the stale guards never decide anything before stop |
| ManagedSse.NeverStuck | frontend/lib/managed-sse.ts:71-134 | Before stop some deliverable event always moves the protocol to another phase |
| ManagedSse.MessagesReachUser | frontend/lib/managed-sse.ts:120-124 | Over every run the messages handed to the user are, in order, exactly the data of the message events delivered |
| ManagedSse.StartsWithProbe | frontend/lib/managed-sse.ts:71-136 | A stream starts with one probe and nothing reported |
| ManagedSse.ProbeIsAnswered | frontend/lib/managed-sse.ts:83-133 | A current probe that settles before stop: 401 and 403 report a pause until now plus the pause time and arm a timer of that length; 200 to 299 clear the pause, reset the attempts and construct an EventSource; anything else backs off |
| ManagedSse.EventsAreAnswered | frontend/lib/managed-sse.ts:66-143 | What a firing timer, an open event, a message, an error and a stop call report and start, event by event |
| ManagedSse.ManagedStream.constructor | frontend/lib/managed-sse.ts:36-136 | The closure starts in the initial state of the machine, with the default auth pause of 60000 ms |
| ManagedSse.ManagedStream.ClearReconnectTimeout | frontend/lib/managed-sse.ts:44-50 | The armed timer, if any, is cancelled and its handle dropped |
| ManagedSse.ManagedStream.CloseEventSource | frontend/lib/managed-sse.ts:52-59 | The EventSource, if any, is closed, dropped and reported once |
| ManagedSse.ManagedStream.ScheduleReconnect | frontend/lib/managed-sse.ts:61-69 | At most one timer is armed afterwards, and none is added to a disposed stream |
| ManagedSse.ManagedStream.Reconnect | frontend/lib/managed-sse.ts:71-86 | A new sequence number with its probe in flight, and neither timer nor EventSource |
| ManagedSse.ManagedStream.OnProbeSettled | frontend/lib/managed-sse.ts:83-133 | Settling a probe is one step of the machine and keeps the invariant |
| ManagedSse.ManagedStream.OnTimer | frontend/lib/managed-sse.ts:66-68 | A firing timer is one step of the machine and keeps the invariant |
| ManagedSse.ManagedStream.OnOpen | frontend/lib/managed-sse.ts:120-123 | An open event is one step of the machine and keeps the invariant |
| ManagedSse.ManagedStream.OnMessage | frontend/lib/managed-sse.ts:124 | A message is handed to the user, as one step of the machine, and changes nothing else |
| ManagedSse.ManagedStream.OnError | frontend/lib/managed-sse.ts:125-133 | An error of the current EventSource closes it and backs off; one of another EventSource is ignored |
| ManagedSse.ManagedStream.StopManagedStream | frontend/lib/managed-sse.ts:138-143 | Stop is one step of the machine and keeps the invariant |
| FrameParser.JoinSplit | frontend/components/live-event-stream.tsx:247-252 | Splitting at the delimiter and joining gives the text back, and no part holds the delimiter |
| FrameParser.SplitAppend | frontend/components/live-event-stream.tsx:237-252 | Frames recognised as complete are not changed by text that arrives later |
| FrameParser.BatchParseIsParse | frontend/components/live-event-stream.tsx:247-252 | Frames and leftover joined by the delimiter are the text; the leftover has no delimiter and a frame's first delimiter is its end |
| FrameParser.ParseIsUnique | frontend/components/live-event-stream.tsx:247-252 | These conditions determine frames and leftover |
| FrameParser.ReadLoop | frontend/components/live-event-stream.tsx:235-271 | The nested loops end on every path, read chunk by chunk, and leave the feed and the buffer that one batch parse of the delivered text would leave |
| FrameParser.DrainBuffer | frontend/components/live-event-stream.tsx:247-270 | The inner loop ends, through each of its `continue`s too; the feed has received the events of exactly the complete frames and the buffer keeps the leftover |
| FrameParser.ChunkingIsIrrelevant | frontend/components/live-event-stream.tsx:235-271 | Any two cuts of one text into chunks leave the reading loop in the same state, feed and buffer, from any state between chunks |
| FrameParser.OneChunkSuffices | frontend/components/live-event-stream.tsx:235-271 | Reading a text in chunks is reading it at once |
| FrameParser.EventIsFirstData | frontend/components/live-event-stream.tsx:253-264 | Under either line end a frame carries what its first line that starts with "data:" says after that, trimmed, if it parses; without such a line it carries nothing |
| FrameParser.ServerFramesReachFeed | veritas_os/api/sse_hub.py:90-93 | However the network cuts what the server wrote, the parsed events are exactly the payloads of its event frames, in order, the feed is the one they make of the seed, and nothing is left over |
| FrameParser.PartialDeliverySeesPrefix | veritas_os/api/sse_hub.py:90-93 | After part of the text the client has seen a prefix of the frames |
| LiveFeed.UpsertOfPrefix | frontend/components/live-event-stream.tsx:266-269 | Moving to the front commutes with cutting the list off (the stack property of least-recently-used lists) |
| LiveFeed.FeedIsRecencyPrefix | frontend/components/live-event-stream.tsx:266-269 | After any events the capped feed is the first 40 entries of the uncapped recency list, from any seed with distinct ids and at most 40 entries |
| LiveFeed.FeedShowsLatest | frontend/components/live-event-stream.tsx:181-269 | The feed has distinct ids, at most 40 entries, in order of last appearance, each as last received |
| LiveFeed.RecencyListIsUnique | frontend/components/live-event-stream.tsx:266-269 | A history has only one recency list, so that description determines the feed |
| LiveFeed.SeedIsDistinct | frontend/components/live-event-stream.tsx:77-114 | The seed list meets the condition |
| LiveFeed.StableSortPartitions | frontend/components/live-event-stream.tsx:347-354 | Any stable sort with this comparator (section 23.1.3.30 of ECMA-262) puts pinned events first and keeps feed order in both groups |
| LiveFeed.PinnedFirstIsStableSort | frontend/components/live-event-stream.tsx:347-354 | Conversely that partition is a stable sort, hence a permutation |
| LiveFeed.FilteredKeepsPassing | frontend/components/live-event-stream.tsx:327-345 | The three filters with their two early exits keep exactly the events that are not muted, have the severity if one is chosen, and in whose text the query stands at some position, in feed order |
| LiveFeed.FiltersCommute | frontend/components/live-event-stream.tsx:327-345 | Any two filters commute |
| Text.ContainsIffOccurs | frontend/components/live-event-stream.tsx:344 | `includes` holds exactly if the searched text stands at some position |
| LiveFeed.DisplayedList | frontend/components/live-event-stream.tsx:327-355 | End to end: the list holds exactly the events that pass these three tests, pinned ones first, each group in feed order |
| TextSanitizer.OnePassLeavesNoTag | frontend/lib/utils.ts:16-21 | One left-to-right global pass already leaves no `<` with a `>` anywhere after it |
| TextSanitizer.RemovesExactlyTags | frontend/lib/utils.ts:16-21 | A pass removes exactly the characters that lie in a tag, where being in a tag is defined by positions |
| TextSanitizer.SanitizedIsClean | frontend/lib/utils.ts:13-23 | The result has no NUL and no tag, is a subsequence of the input, and sanitising it again changes nothing |
| TextSanitizer.SanitizeText | frontend/lib/utils.ts:13-23 | The do-while loop ends after at most two bodies with that result |
| TextSanitizer.CleanIffTextsAreSafe | frontend/lib/utils.ts:13-14 | Strings come out clean; any other argument exactly if the texts inside it, through nested arrays, are clean one by one and no text with a less-than sign stands before one with a greater-than sign |
| TextSanitizer.ScalarsAreClean | frontend/lib/utils.ts:13-23 | Every argument that is no array and no object with its own rendering comes out clean, whatever the number or big integer |
| TextSanitizer.ArraysAreNotSanitised | frontend/lib/utils.ts:14 | An array with a tag in it, and an array of clean elements, that do not come out clean |
| TextSanitizer.NaturalReadsBack | frontend/lib/utils.ts:14 | An integer is written with the digits that denote it, without leading zeros |
| TextSanitizer.ListsAreJoined | frontend/lib/utils.ts:14 | An array is written as its elements with commas between them, null and undefined as nothing |
| TextSanitizer.WrittenNumbers | frontend/lib/utils.ts:14 | How four numbers are written (section 6.1.6.1.20 of ECMA-262) |
| TextSanitizer.WrittenExponents | frontend/lib/utils.ts:14 | How two numbers with an exponent are written |
| RetryingFetch.FetchWithOptions | frontend/lib/api-client.ts:131-218 | The loop makes the attempts the outcomes call for, at most 1 + max(0, retries), waits 1000 * 2^k between them and ends with the verdict of the last |
| RetryingFetch.AttemptsAreDetermined | frontend/lib/api-client.ts:131-218 | The outcomes alone decide the number of fetches |
| RetryingFetch.WhatCallersSee | frontend/lib/api-client.ts:131-218 | 502, 503 and 504 and rejections that are no abort are followed by another attempt unless it was the last; every other outcome ends the loop; and the verdict is that of the last outcome, with its kind and message |
| RetryingFetch.TimeoutNeedsAbortName | frontend/lib/api-client.ts:131-218 | A request whose every attempt times out is reported as a timeout if and only if some attempt is rejected under the name "AbortError", and as a network error after the last attempt otherwise |
| RetryingFetch.TotalBackoff | frontend/lib/api-client.ts:131-218 | The waits of k retries add up to 1000(2^k - 1) ms |
| EvidenceChain.RecomputeIsConsistent | scripts/demo/generate_reviewer_evidence_packet_from_evaluation_governance_chain.py:440-465 | After recomputing, outcome_hash, outcome_receipt_hash, manifest_hash and recomputed_manifest_hash are the digests of what they cover and agree along the chain |
| EvidenceChain.RecomputeIsIdempotent | scripts/demo/generate_reviewer_evidence_packet_from_evaluation_governance_chain.py:440-465 | Recomputing a second time changes nothing |
| EvidenceChain.RecomputeKeeps | scripts/demo/generate_reviewer_evidence_packet_from_evaluation_governance_chain.py:440-465 | Apart from the hashes and the report of the check no key of the three records changes |
| EvidenceChain.EnsureIsConsistent | scripts/demo/generate_reviewer_evidence_packet_from_evaluation_governance_chain.py:468-610 | After the evidence pass every well-shaped case, verified or not, is hash-consistent |
| EvidenceChain.VerifiedCaseIsCoherent | scripts/demo/generate_reviewer_evidence_packet_from_evaluation_governance_chain.py:502-610 | A verified case has five non-empty verifier values that agree in summary, manifest and metadata, and one lifecycle hash in manifest and metadata |
| EvidenceChain.BindContextIsIdempotent | scripts/demo/generate_reviewer_evidence_packet_from_evaluation_governance_chain.py:374-423 | Binding the context of a case a second time changes nothing |
| EvidenceChain.EvidencePassIsIdempotent | scripts/demo/generate_reviewer_evidence_packet_from_evaluation_governance_chain.py:468-610 | The evidence pass changes nothing, no hash included, on a well-shaped case it has treated |
| EvidenceChain.TamperedIsConsistent | scripts/demo/generate_reviewer_evidence_packet_from_evaluation_governance_chain.py:652-737 | A tampered copy of a well-shaped case is still hash-consistent: it is the continuity, not the hash chain, that shows the tampering |
| EvidenceChain.LifecycleTamperFrame | scripts/demo/generate_reviewer_evidence_packet_from_evaluation_governance_chain.py:613-675 | A lifecycle tamper case blocks, reports its reason, and differs from its source only in labels, reporting, derived hashes and the lifecycle hash on one side |
| EvidenceChain.VerifierTamperFrame | scripts/demo/generate_reviewer_evidence_packet_from_evaluation_governance_chain.py:678-737 | A verifier tamper case blocks, reports its reason, and differs from its source only in labels, reporting, derived hashes and one field of the summary |
| EvidenceChain.LifecycleTamperBreaksOneLink | scripts/demo/generate_reviewer_evidence_packet_from_evaluation_governance_chain.py:652-675 | From a coherent source it breaks the lifecycle hash, if and only if the source did not carry the tamper value, and no verifier link |
| EvidenceChain.VerifierTamperBreaksOneLink | scripts/demo/generate_reviewer_evidence_packet_from_evaluation_governance_chain.py:707-737 | From a coherent source it breaks the link it is aimed at, if and only if the source did not carry the tamper value, and no other |
| EvidenceChain.TimestampShows | scripts/demo/generate_reviewer_evidence_packet_from_evaluation_governance_chain.py:678-737 | A verifier tamper keeps the timestamp of the verification summary and the lifecycle summary, and puts the tamper value into the field it is aimed at |
| EvidenceChain.AppendedCases | scripts/demo/generate_reviewer_evidence_packet_from_evaluation_governance_chain.py:740-821 | The two append passes keep every earlier case and add the 3 + 5 tampers of the same source, or nothing if there is no source |
| EvidenceChain.GeneratedTampersShow | scripts/demo/generate_reviewer_evidence_packet_from_evaluation_governance_chain.py:861-868 | End to end from the template: the prepared source is coherent and eight blocking cases follow; each breaks exactly its own link, the timestamp case no link but its agreement with the verification summary, if and only if the source did not carry the tamper value |
| EvidenceChain.LifecycleTampersAlwaysShow | scripts/demo/verifier_lifecycle.py:80-126 | If a summary with a proof hash gets a lifecycle summary with a snapshot hash, as it does, then the prepared source has one and both tampers that take it away break the lifecycle hash |
| EvidenceChain.PacketHashCoversPacket | scripts/demo/generate_reviewer_evidence_packet_from_evaluation_governance_chain.py:824-886 | packet_hash is the digest of the returned packet without it |
| EvidenceChain.PacketDigestIgnoresStoredHash | scripts/demo/generate_reviewer_evidence_packet_from_evaluation_governance_chain.py:824-828 | Packets that differ in packet_hash alone have the same digest, so a reader can compute it again from the packet as received |
| EvidenceChain.GeneratedPacketIsConsistent | scripts/demo/generate_reviewer_evidence_packet_from_evaluation_governance_chain.py:861-886 | Every well-shaped case of the returned packet, original or tampered, is hash-consistent |
| EvidencePacket.RecomputeNestedHashes | scripts/demo/generate_reviewer_evidence_packet_from_evaluation_governance_chain.py:440-465 | The three records, updated in place one key at a time, become the recomputed chain |
| EvidencePacket.BindCaseContext | scripts/demo/generate_reviewer_evidence_packet_from_evaluation_governance_chain.py:386-423 | The case's summary record and entries are updated in place to the bound case, whatever its sections are |
| EvidencePacket.EnsureCaseEvidence | scripts/demo/generate_reviewer_evidence_packet_from_evaluation_governance_chain.py:484-610 | The case's records become the treated case; records that stand in for sections that are none stay outside the case |
| EvidencePacket.DeepCopy | scripts/demo/generate_reviewer_evidence_packet_from_evaluation_governance_chain.py:808 | The copy has the same value and shares no record with anything |
| EvidencePacket.CommitSafetyFields | scripts/demo/generate_reviewer_evidence_packet_from_evaluation_governance_chain.py:613-621 | The verdict fields say "block" and the reason is listed once |
| EvidencePacket.MarkLifecycleContinuityFailure | scripts/demo/generate_reviewer_evidence_packet_from_evaluation_governance_chain.py:624-649 | The verification record reports the lifecycle failure and loses the continuity link |
| EvidencePacket.TamperLifecycle | scripts/demo/generate_reviewer_evidence_packet_from_evaluation_governance_chain.py:652-675 | The records of the case, and no others, become the tampered case; without manifest or outcome nothing changes |
| EvidencePacket.TamperVerifier | scripts/demo/generate_reviewer_evidence_packet_from_evaluation_governance_chain.py:707-737 | The records of the case, and no others, become the tampered case; without a summary nothing changes |
| EvidencePacket.PacketRecord.BindContexts | scripts/demo/generate_reviewer_evidence_packet_from_evaluation_governance_chain.py:374-423 | The loop over the cases binds every case, each in its own records |
| EvidencePacket.PacketRecord.EnsureVerifierEvidence | scripts/demo/generate_reviewer_evidence_packet_from_evaluation_governance_chain.py:468-610 | The loop over the cases treats every case, and no record comes to belong to two cases |
| EvidencePacket.PacketRecord.FindSourceCase | scripts/demo/generate_reviewer_evidence_packet_from_evaluation_governance_chain.py:799-806 | The first case with the source's identifier is found, or none |
| EvidencePacket.PacketRecord.AppendLifecycleTamperCases | scripts/demo/generate_reviewer_evidence_packet_from_evaluation_governance_chain.py:788-821 | Only the list grows: no record that existed before is written, and the cases appended are the three tampers of the source |
| EvidencePacket.PacketRecord.AppendVerifierTamperCases | scripts/demo/generate_reviewer_evidence_packet_from_evaluation_governance_chain.py:740-785 | Only the list grows: no record that existed before is written, and the cases appended are the five tampers of the source |
| EvidencePacket.PacketRecord.Digest | scripts/demo/generate_reviewer_evidence_packet_from_evaluation_governance_chain.py:824-828 | The payload copied from the records case by case has the digest of the packet, and of every packet that differs from it in packet_hash alone |
| EvidencePacket.PacketRecord.Generate | scripts/demo/generate_reviewer_evidence_packet_from_evaluation_governance_chain.py:861-886 | The packet updated in place is the generated packet, keeps its cases in front, and its packet_hash is the digest of the rest |
| PreparedCases.ClaimsIffVerified | scripts/demo/generate_reviewer_evidence_packet_from_evaluation_governance_chain.py:426-437 | A case is treated as verified exactly if approved, receipt_hash_present and human_approval_required are true and failure_reasons says nothing |
| PreparedCases.SaysIffTruthy | scripts/demo/generate_reviewer_evidence_packet_from_evaluation_governance_chain.py:432-437 | A value says something exactly if it is none of null, false, zero and the empty string, list and object |
| PreparedCases.UnclaimedCaseIsLeft | scripts/demo/generate_reviewer_evidence_packet_from_evaluation_governance_chain.py:502-519 | Any other case keeps every value of its summary, its outcome metadata and, but for hashes, its manifest; its lifecycle summary is null and no proof link is added |
| PreparedCases.ClaimedCaseIsFilled | scripts/demo/generate_reviewer_evidence_packet_from_evaluation_governance_chain.py:520-610 | A case that does: all three records get one proof hash, verifier, key and policy, for each the first of summary, manifest and metadata that says something, and the synthetic one only if none does; the time, the receipt, the lifecycle summary and hash, and the proof link |
| PreparedCases.ClaimedCaseFrame | scripts/demo/generate_reviewer_evidence_packet_from_evaluation_governance_chain.py:520-610 | Nothing else in its records changes |
| PreparedCases.ContextIsBound | scripts/demo/generate_reviewer_evidence_packet_from_evaluation_governance_chain.py:374-423 | A summary gets all eight context values, those of the execution from manifest and outcome where it has none, and nothing else changes but for nulls in place of absent entries |
| PreparedCases.PacketShowsClaimsOnly | scripts/demo/generate_reviewer_evidence_packet_from_evaluation_governance_chain.py:861-867 | End to end: the packet holds every well-shaped case of the template at its place, with verifier evidence if it claims a verified approval and as unverified as it was if not |
| PublishedPacket.PublishedPacketIsHashed | scripts/demo/generate_reviewer_evidence_packet_from_evaluation_governance_chain.py:440-886 | In the JSON a reader receives, the packet hash is the digest of all the rest, and the outcome hash, outcome receipt hash, manifest hash and recomputed hash of every well-shaped case are the digests of what they cover |
| PublishedPacket.PublishedHeader | scripts/demo/generate_reviewer_evidence_packet_from_evaluation_governance_chain.py:869-885 | What the generator writes over the entries of the template, and that it leaves the others |
| PublishedPacket.LifecycleTamperIsShown | scripts/demo/generate_reviewer_evidence_packet_from_evaluation_governance_chain.py:613-675 | For each lifecycle tamper: the name, verdict, reason and affected link of the case, and which side loses or changes its hash |
| PublishedPacket.VerifierTamperIsShown | scripts/demo/generate_reviewer_evidence_packet_from_evaluation_governance_chain.py:613-737 | For each verifier tamper: the name, verdict, reason and affected link of the case, and the one field of the summary with its value |
| PublishedPacket.LifecycleTamperLinks | scripts/demo/generate_reviewer_evidence_packet_from_evaluation_governance_chain.py:624-675 | A lifecycle tamper withdraws the continuity link and claim and keeps or adds the proof link |
| PublishedPacket.VerifierTamperLinks | scripts/demo/generate_reviewer_evidence_packet_from_evaluation_governance_chain.py:678-737 | A verifier tamper keeps or adds the proof link, unless the proof is tampered with |
| PublishedPacket.PacketEndsInTampers | scripts/demo/generate_reviewer_evidence_packet_from_evaluation_governance_chain.py:740-868 | The packet ends in these eight cases, in this order, made from the first case named "valid_authority_and_approval" |
| ReceiptReasons.CausesAreReported | scripts/demo/generate_outcome_delta_attribution.py:210-369 | Exactly which causes are reported, with type, severity and both values, by nothing but what stands under the keys of the two receipts |
| ReceiptReasons.CausesInOrder | scripts/demo/generate_outcome_delta_attribution.py:210-369 | Causes come in the order of the fields, those of qualifiers by ascending name, and no field is reported twice |
| ReceiptReasons.AttributionOfReceipts | scripts/demo/generate_outcome_delta_attribution.py:372-463 | Outcome flag, unresolved flag, confidence and proposed action, by what stands in the receipts |
| Orders.StringLeqIsLexicographic | scripts/demo/generate_outcome_delta_attribution.py:189-265 | One string sorts before another if it is a prefix of it or has the lower character at the first difference |
| OutcomeDelta.QualifierMap | scripts/demo/generate_outcome_delta_attribution.py:159-172 | The loop builds the index of the well-formed qualifiers |
| OutcomeDelta.LastQualifierWins | scripts/demo/generate_outcome_delta_attribution.py:159-172 | A name is indexed exactly if some qualifier has it, by the last one that does |
| OutcomeDelta.IdentitySetsCompareAsSets | scripts/demo/generate_outcome_delta_attribution.py:175-189 | The sorted identity lists are equal exactly if the sets of pairs are |
| OutcomeDelta.HasUnauthorizedDeterminer | scripts/demo/generate_outcome_delta_attribution.py:192-207 | True exactly if some determiner's normalised scope is marked |
| OutcomeDelta.OnlyTwoMarkersMatter | scripts/demo/generate_outcome_delta_attribution.py:46-207 | A scope is marked exactly if it is empty, "unknown", or one of the two spellings stands in it at some position: the other four markers change nothing |
| OutcomeDelta.CompareReceipts | scripts/demo/generate_outcome_delta_attribution.py:210-369 | An attribute error exactly if a section is no object; otherwise the differences in their order |
| OutcomeDelta.CausesHaveCause | scripts/demo/generate_outcome_delta_attribution.py:210-369 | For every cause type, exactly when it occurs; unexplained drift occurs iff outcomes differ, all projections agree and no marker is present |
| OutcomeDelta.FieldDiffsHaveCause | scripts/demo/generate_outcome_delta_attribution.py:210-330 | A field's cause type occurs among the differences exactly if the field differs |
| OutcomeDelta.NoDiffsIffAgree | scripts/demo/generate_outcome_delta_attribution.py:210-330 | No difference is listed exactly if every compared projection agrees |
| OutcomeDelta.CausesShape | scripts/demo/generate_outcome_delta_attribution.py:331-369 | The list is never empty, and the unexplained and the neutral cause occur only alone |
| OutcomeDelta.QualifierCausesAreDifferences | scripts/demo/generate_outcome_delta_attribution.py:263-285 | Qualifier causes name exactly the qualifiers whose last entries differ, each once, in ascending order |
| OutcomeDelta.FieldDiffsExchange | scripts/demo/generate_outcome_delta_attribution.py:210-330 | Exchanging the receipts exchanges the values in each difference and keeps types and order |
| DriftDetection.CollectDriftCauses | scripts/demo/generate_evaluation_drift_detection.py:308-340 | The loop collects the first cause of each drift type |
| DriftDetection.DriftCausesMeaning | scripts/demo/generate_evaluation_drift_detection.py:275-340 | Never empty, no type twice, a type exactly if a cause of the kind behind it occurs, with the severity of the first one, the inconclusive cause exactly if none does |
| DriftDetection.DetectedIffStatus | scripts/demo/generate_evaluation_drift_detection.py:182-272 | For any attribution, drift is detected exactly under a status other than "not_detected" |
| DriftDetection.ClassifyMeaning | scripts/demo/generate_evaluation_drift_detection.py:182-272 | For any attribution, exactly when each status, consistency, explanation and action is given; the set of drift-like causes never decides anything |
| DriftDetection.StatusTable | scripts/demo/generate_evaluation_drift_detection.py:182-272 | End to end, the status by what differs between the receipts; the non-deterministic status is never reached |
| DriftDetection.DetectionTable | scripts/demo/generate_evaluation_drift_detection.py:182-272 | End to end, all five fields of the detection by what differs between the receipts |
| DriftDetection.ValidatedDetectionTable | scripts/demo/generate_outcome_delta_attribution.py:432-463 | End to end on validated receipts, all five fields of the detection by nothing but what stands under the keys of the receipts |
| DriftDetection.NoActionIff | scripts/demo/generate_evaluation_drift_detection.py:182-272 | On validated receipts no action is proposed iff the outcome is the same, no version differs and no determiner is unauthorised |
| DriftDetection.DriftDetectedIff | scripts/demo/generate_evaluation_drift_detection.py:182-272 | End to end: detected iff evaluator version, policy identity or rule-set version differ, or a determiner is unauthorised, or the outcome changed with no difference found |
| DriftDetection.UnresolvedFlagIsIdle | scripts/demo/generate_evaluation_drift_detection.py:174-222 | The unresolved-delta flag of a generated attribution never decides the result |
| DriftDetection.ValidatedFlagsAgree | scripts/demo/generate_outcome_delta_attribution.py:331-463 | On validated receipts nothing fails, and `outcome_changed` is the comparison of the outcomes |
| DriftDetection.OutcomeFlagsDisagreeIff | scripts/demo/generate_outcome_delta_attribution.py:80-463 | For receipts that were not validated, whose outcomes are strings if present: exactly when `outcome_changed` and the comparison of outcomes disagree |
| DriftDetection.UnexplainedWithoutOutcomeChange | scripts/demo/generate_evaluation_drift_detection.py:200-207 | An instance, which validation rejects: unexplained drift reported with an unchanged outcome |
| Percentiles.PercentilesAgree | scripts/benchmarks/run_performance_metrics.py:49-64 | Both implementations agree on every non-empty list |
| Percentiles.PercentileIsNearestRank | scripts/demo/one_day_poc_benchmark.py:49-57 | For 0 < p <= 100 the result is the least sample v such that at least p% of the samples are at most v |
| Percentiles.PercentileOutOfRange | scripts/demo/one_day_poc_benchmark.py:49-57 | At or below 0 the result is the least sample, above 100 the greatest |
| Percentiles.PercentileOfPermutation | scripts/demo/one_day_poc_benchmark.py:49-57 | The order of the samples is irrelevant |
| Percentiles.PercentileMonotone | scripts/demo/one_day_poc_benchmark.py:49-57 | A larger percentage never gives a smaller result |
| Percentiles.SummaryIsOrdered | scripts/demo/one_day_poc_benchmark.py:60-85 | min <= p50 <= p95 <= p99 <= max; min and max are samples that bound all samples, and the percentiles are the nearest-rank ones |
| Percentiles.RunTarget | scripts/demo/one_day_poc_benchmark.py:166-193 | Successes and failures add up to the runs, each run has its record, and the summary is that of the successful timings |
| Percentiles.TimesAndErrors | scripts/demo/one_day_poc_benchmark.py:166-193 | The timings are those of the completed runs and the records those of the others, both in order |
| Percentiles.CollectMetrics | scripts/benchmarks/run_performance_metrics.py:99-156 | Every iteration is counted once, successes are the accepted iterations, wrong arguments are refused, the percentiles are those of the other definition, and min and max are samples that bound all samples |
| AuditLinks.LinkIffIdentifier | frontend/lib/governance-link-utils.ts:7-58 | A link is built exactly for strings whose trimmed form is a non-empty run of letters, digits and the marks . _ : -; the final safety check turns none down |
| AuditLinks.LinkRoundTrip | frontend/lib/governance-link-utils.ts:35-58 | Decoding a link (section 5 of the WHATWG URL Standard) gives the name of the key, bind_receipt_id, decision_id or execution_intent_id, and the trimmed identifier back |
| AuditLinks.LinksAreInjective | frontend/lib/governance-link-utils.ts:35-58 | Different keys or identifiers never share a link |
| LegitimacyReview.ClassifyImpactCategories | scripts/demo/generate_legitimacy_impact_review.py:247-309 | The loops over one mutable set compute the published list |
| LegitimacyReview.OrderedListsEachOnce | scripts/demo/generate_legitimacy_impact_review.py:57-309 | The list is a duplicate-free subsequence of CATEGORY_ORDER and loses no category |
| LegitimacyReview.CategoriesMeaning | scripts/demo/generate_legitimacy_impact_review.py:221-309 | Exactly which flag, manifest type, scope, signal or high-risk scope puts each category on the list, and when the unknown one is on it |
| LegitimacyReview.ActionIsHighestRung | scripts/demo/generate_legitimacy_impact_review.py:477-511 | The recommended action is the highest rung whose trigger holds, for each of the eight actions |
| LegitimacyReview.LadderMonotone | scripts/demo/generate_legitimacy_impact_review.py:477-511 | More known categories, or a detection, never move the action down the ladder |
| LegitimacyReview.FlagsAreMonotone | scripts/demo/generate_legitimacy_impact_review.py:221-511 | Adding legitimacy flags removes no category but the unknown one and never moves the action down |
| LegitimacyReview.EmptyIffOnlyUnknown | scripts/demo/generate_legitimacy_impact_review.py:247-560 | Exactly which flags, manifest type, scope, signals, status and action make the category list empty; the fallback of the generated review never replaces it |
| LegitimacyReview.EmptyListExample | scripts/demo/generate_legitimacy_impact_review.py:247-560 | An input that meets what the input schemas demand of these fields and gives a review without categories |
| BoundaryChecker.ExpandLogicalImportAliases | scripts/architecture/check_responsibility_boundaries.py:299-306 | The nested loops add exactly the logical modules whose helpers are imported |
| BoundaryChecker.ExpansionIsIdempotent | scripts/architecture/check_responsibility_boundaries.py:299-306 | Expanding twice adds nothing |
| BoundaryChecker.ExpansionIsMonotone | scripts/architecture/check_responsibility_boundaries.py:299-306 | More imports never expand to fewer |
| BoundaryChecker.ResolveModuleSourcePaths | scripts/architecture/check_responsibility_boundaries.py:354-394 | The loop keeps the first occurrence of every candidate file |
| BoundaryChecker.SourcePathsCoverOnce | scripts/architecture/check_responsibility_boundaries.py:354-394 | Every existing flat file, package file, shim and helper of a module is scanned once, in this order, and a module without files still has one path |
| BoundaryChecker.BreachesAreImports | scripts/architecture/check_responsibility_boundaries.py:309-338 | A forbidden module is named exactly if it is imported or, for planner, kernel, fuji, memory and pipeline, a name that starts with it and an underscore is; each once and in order |
| BoundaryChecker.CollectBoundaryIssues | scripts/architecture/check_responsibility_boundaries.py:474-555 | The loops list the documentation issues, then the issues of each rule and file in order |
| BoundaryChecker.CollectViolations | scripts/architecture/check_responsibility_boundaries.py:558-586 | The loops list the violations of each rule and file in order, passing over files that cannot be read |
| BoundaryChecker.CheckRule | scripts/architecture/check_responsibility_boundaries.py:315-346 | The messages of one rule in order |
| BoundaryChecker.IssuesReport | scripts/architecture/check_responsibility_boundaries.py:474-555 | The issues are exactly the reports on the files of the ruled modules: code, message, path, module and forbidden module, by what reading the file gives |
| BoundaryChecker.CollectorsAgree | scripts/architecture/check_responsibility_boundaries.py:474-586 | On one snapshot the three collectors agree: violations are, one to one and in order, the `boundary_violation` issues |
| BoundaryChecker.SummarizeIssues | scripts/architecture/check_responsibility_boundaries.py:644-658 | Each code is counted exactly, the counts add up to the number of issues, and the status fails iff there is one |
| DocBullets.ScanBullets | scripts/architecture/check_responsibility_boundaries.py:715-730 | The flag-driven loop takes the bullets that follow the first bullet, up to the first other line |
| DocBullets.LineIsBulletIff | scripts/architecture/check_responsibility_boundaries.py:717-727 | A line is a bullet exactly if it is a dash, an asterisk, a plus sign or a number with a dot, white space, and an item, which is taken without its backticks |
| DocBullets.BulletRoundTrip | scripts/architecture/check_responsibility_boundaries.py:709-730 | From the text of a section: extension points listed as bullets under its first marker are read back exactly, after cutting at the marker and into lines |
| DocBullets.SplitLinesOfUnlines | scripts/architecture/check_responsibility_boundaries.py:717 | `splitlines` gives back the lines of a text whose lines hold no line break |
| DocBullets.AlignedIffSameMultiset | scripts/architecture/check_responsibility_boundaries.py:739-743 | The comparison accepts exactly lists that are equal as multisets |
| DocBullets.DocumentPassesIffSamePoints | scripts/architecture/check_responsibility_boundaries.py:709-743 | End to end from the text of a section: it passes exactly if it lists the configured points |

## Left out

- Managed SSE: user callbacks that throw; stop calls nested inside a callback that a stop call itself makes. A closed
  EventSource is taken to fire no open or message event (section 9.2 of the WHATWG HTML Standard).
- Live feed: the component's own reconnect loop, `toLiveEvent` and `JSON.parse` (one parameter together), UTF-8 decoding,
  `buildLink`, and rendering. The inner loop's check for unmounting cannot change between two frames of one chunk and is
  part of the read result.
- Strings are sequences of Dafny characters: no UTF-16 surrogates, no Unicode case folding; lower-casing and the text that
  is searched are parameters, and digits in the bullet scanner are the ASCII ones.
- Retrying fetch: headers, timers and AbortController plumbing; each attempt's outcome (status, or error name with the
  timed-out and caller-aborted flags) is an input. `retries` is an integer.
- Percentiles: floating-point rounding; samples and ratios are exact reals.
- Reviewer packet: SHA-256 and canonical JSON (the digest is a parameter), JSON Schema validation, the attachment of
  artifacts, replacement of template strings, and the lifecycle summary derived from a human approval (a parameter).
- Reviewer packet: lists inside a record are values, not objects; no list is shared between two records here. A case's four
  sections and the metadata of its outcome receipt are objects.
- EvidenceChain.EvidencePassIsIdempotent: is stated for well-shaped cases; a case with a section that is no dictionary is
  treated against fresh empty dictionaries every time.
- Receipts and drift: evidence references, explanations, identifiers and timestamps; Python's equality of `True` and `1`;
  severities that are no strings. Normalising a scope and rendering an outcome as text are parameters.
- DriftDetection.OutcomeFlagsDisagreeIff: is stated for outcomes that are strings if present; receipts that were not validated
  may hold others. Of the receipt schema only what concerns the fields the two stages read is modelled.
- Sanitising: conversions that throw (a symbol inside an array, an object whose conversion fails) and arrays that contain
  themselves.
- Legitimacy review: impact objects, review status, and how high-risk evidence is recognised (an input).
- Boundary checker: parsing Python files, resolving import statements to names, the docstring and alignment checks
  themselves (their issues are an input to the collector), the remediation text, and finding a section of the document.
- Audit links: only the alphabet of identifiers is serialised; reading back is on ASCII.
- Parts not modelled at all, because they would add wide but shallow members or lie outside these files: API validators,
  mission adapters, release and readiness reports, runtime reset, benchmark packet layout, migrations, and the decision
  pipeline itself.
