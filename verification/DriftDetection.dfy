/** Classifying an attribution into a drift detection: `scripts/demo/generate_evaluation_drift_detection.py`,
    and what the two stages mean together. */
module DriftDetection {
  import opened Json
  import opened Lists
  import opened Optional
  import opened OutcomeDelta
  import opened ReceiptReasons

  /** The governance actions an attribution can carry; `Unknown` is any other string. */
  datatype AttributionAction =
    | None_ | Review_ | Requalify_ | Escalate_ | Refuse_ | MarkDrift_ | MarkNonDeterministic_ | Unknown_

  /** What the detector reads of an attribution: its well-shaped causes, two flags, and the action if it is a string. */
  datatype Input = Input(causes: seq<Cause>, outcomeChanged: bool, unresolvedPresent: bool,
      action: Option<AttributionAction>)

  datatype DriftStatus = NotDetected | Suspected | Confirmed | Unexplained | NonDeterministicallyGoverned

  datatype Consistency = Consistent | Inconsistent | UnknownConsistency | NotComparable

  datatype Explanation = FullyExplained | PartiallyExplained | RequiresReview | UnexplainedDrift

  datatype DetectionAction =
    | NoDetectionAction | ReviewDetection | RequalifyEvaluator | EscalateDetection | Refuse | MarkEvaluationDrift_
    | MarkNonDeterministicallyGoverned

  datatype Classification = Classification(detected: bool, status: DriftStatus, consistency: Consistency,
                                           explanation: Explanation, action: DetectionAction)

  /** `_attribution_action`. */
  function MappedAction(action: Option<AttributionAction>): DetectionAction {
    match action
    case None => ReviewDetection
    case Some(None_) => NoDetectionAction
    case Some(Review_) => ReviewDetection
    case Some(Requalify_) => RequalifyEvaluator
    case Some(Escalate_) => EscalateDetection
    case Some(Refuse_) => Refuse
    case Some(MarkDrift_) => MarkEvaluationDrift_
    case Some(MarkNonDeterministic_) => MarkNonDeterministicallyGoverned
    case Some(Unknown_) => ReviewDetection
  }

  predicate IsDriftLike(kind: CauseType) {
    || kind.UnexplainedEvaluationDrift? || kind.UnauthorizedDeterminerInfluence? || kind.EvaluatorVersionChanged?
    || kind.RuleVersionChanged? || kind.PolicyIdentityChanged? || kind.ThresholdStateChanged?
    || kind.RefusalBoundaryChanged? || kind.EscalationResolverChanged?
  }

  predicate IsContextOrQualifier(kind: CauseType) { kind.MaterialContextChanged? || kind.QualifierFreshnessChanged? }

  /** `classify_drift`. */
  function Classify(i: Input): Classification {
    if HasCause(i.causes, UnexplainedEvaluationDrift) then
      Classification(true, Unexplained, Inconsistent, UnexplainedDrift, MarkEvaluationDrift_)
    else if HasCause(i.causes, UnauthorizedDeterminerInfluence) then
      Classification(true, Confirmed, Inconsistent, RequiresReview, EscalateDetection)
    else if i.unresolvedPresent then
      Classification(true, NonDeterministicallyGoverned, UnknownConsistency, RequiresReview,
          MarkNonDeterministicallyGoverned)
    else if HasCause(i.causes, EvaluatorVersionChanged) then
      Classification(true, Suspected, UnknownConsistency, PartiallyExplained, RequalifyEvaluator)
    else if HasCause(i.causes, RuleVersionChanged) || HasCause(i.causes, PolicyIdentityChanged)
        || HasCause(i.causes, ThresholdStateChanged) then
      Classification(true, Suspected, UnknownConsistency, PartiallyExplained, MappedAction(i.action))
    else if HasCause(i.causes, RefusalBoundaryChanged) || HasCause(i.causes, EscalationResolverChanged) then
      Classification(true, Suspected, UnknownConsistency, RequiresReview, MappedAction(i.action))
    else if i.causes != [] && (forall k :: 0 <= k < |i.causes| ==> IsContextOrQualifier(i.causes[k].kind)) then
      Classification(false, NotDetected, NotComparable, FullyExplained, if i.outcomeChanged then ReviewDetection
          else NoDetectionAction)
    else if !i.outcomeChanged && (forall k :: 0 <= k < |i.causes| ==> !IsDriftLike(i.causes[k].kind)) then
      Classification(false, NotDetected, Consistent, FullyExplained, NoDetectionAction)
    else
      Classification(false, NotDetected, NotComparable, FullyExplained, MappedAction(i.action))
  }

  ghost predicate SuspiciousKind(kind: CauseType) {
    || kind.EvaluatorVersionChanged? || kind.RuleVersionChanged? || kind.PolicyIdentityChanged?
    || kind.ThresholdStateChanged? || kind.RefusalBoundaryChanged? || kind.EscalationResolverChanged?
  }

  /** The detection's action of the same meaning; a missing or unknown one becomes a review. */
  ghost predicate IsActionFor(action: Option<AttributionAction>, d: DetectionAction) {
    || (action == Some(None_) && d.NoDetectionAction?)
    || (action in {None, Some(Review_), Some(Unknown_)} && d.ReviewDetection?)
    || (action == Some(Requalify_) && d.RequalifyEvaluator?)
    || (action == Some(Escalate_) && d.EscalateDetection?)
    || (action == Some(Refuse_) && d.Refuse?)
    || (action == Some(MarkDrift_) && d.MarkEvaluationDrift_?)
    || (action == Some(MarkNonDeterministic_) && d.MarkNonDeterministicallyGoverned?)
  }

  lemma ActionsCarryOver(action: Option<AttributionAction>)
    ensures IsActionFor(action, MappedAction(action))
  {
  }

  /** What a classification means, whatever attribution it is of.  Of the two sets of cause types the drift-like one
      never decides anything: where it is consulted no cause of it is left. */
  lemma ClassifyMeaning(i: Input)
    ensures var c := Classify(i);
            var governed := !HasCause(i.causes, UnexplainedEvaluationDrift)
                            && !HasCause(i.causes, UnauthorizedDeterminerInfluence);
            var contextOnly := i.causes != [] && forall k :: 0 <= k < |i.causes| ==>
                i.causes[k].kind.MaterialContextChanged? || i.causes[k].kind.QualifierFreshnessChanged?;
            var suspicious := exists k :: 0 <= k < |i.causes| && SuspiciousKind(i.causes[k].kind);
            && (c.status == Unexplained <==> HasCause(i.causes, UnexplainedEvaluationDrift))
            && (c.status == Confirmed <==> !governed && !HasCause(i.causes, UnexplainedEvaluationDrift))
            && (c.status == NonDeterministicallyGoverned <==> governed && i.unresolvedPresent)
            && (c.status == Suspected <==> governed && !i.unresolvedPresent && suspicious)
            && (c.consistency == Inconsistent <==> c.status == Unexplained || c.status == Confirmed)
            && (c.consistency == UnknownConsistency <==>
                  c.status == NonDeterministicallyGoverned || c.status == Suspected)
            && (c.consistency == Consistent <==> c.status == NotDetected && !i.outcomeChanged && !contextOnly)
            && (c.explanation == UnexplainedDrift <==> c.status == Unexplained)
            && (c.explanation == FullyExplained <==> c.status == NotDetected)
            && (c.explanation == PartiallyExplained <==>
                  c.status == Suspected &&
                     (HasCause(i.causes, EvaluatorVersionChanged) || HasCause(i.causes, RuleVersionChanged)
                      || HasCause(i.causes, PolicyIdentityChanged) || HasCause(i.causes, ThresholdStateChanged)))
            && match c.status
               case Unexplained => c.action == MarkEvaluationDrift_
               case Confirmed => c.action == EscalateDetection
               case NonDeterministicallyGoverned => c.action == MarkNonDeterministicallyGoverned
               case Suspected =>
                 if HasCause(i.causes, EvaluatorVersionChanged) then c.action == RequalifyEvaluator
                 else IsActionFor(i.action, c.action)
               case NotDetected =>
                 if !i.outcomeChanged then c.action == NoDetectionAction
                 else if contextOnly then c.action == ReviewDetection else IsActionFor(i.action, c.action)
  {
    ActionsCarryOver(i.action);
    hide HasCause, MappedAction, IsActionFor;
    SuspiciousOnly(i.causes);
    DriftLikeOnly(i.causes);
  }

  lemma SuspiciousOnly(causes: seq<Cause>)
    ensures (exists k :: 0 <= k < |causes| && SuspiciousKind(causes[k].kind)) <==>
            || HasCause(causes, EvaluatorVersionChanged) || HasCause(causes, RuleVersionChanged)
            || HasCause(causes, PolicyIdentityChanged) || HasCause(causes, ThresholdStateChanged)
            || HasCause(causes, RefusalBoundaryChanged) || HasCause(causes, EscalationResolverChanged)
  {
    if k :| 0 <= k < |causes| && SuspiciousKind(causes[k].kind) {
      assert HasCause(causes, causes[k].kind);
    }
  }

  // ---------------------------------------------------------------- drift causes

  datatype DriftCauseType =
    | UnexplainedDriftCause | UnauthorizedInfluence | EvaluatorVersion | RuleVersion | PolicyIdentity | ThresholdState
    | RefusalBoundary | EscalationResolver | MaterialContextAmbiguous | QualifierStateAmbiguous
    | AttributionInconclusive

  datatype DriftCause = DriftCause(kind: DriftCauseType, severity: Severity)

  /** `DRIFT_CAUSE_TYPE_BY_ATTRIBUTION_CAUSE.get`. */
  function DriftTypeOf(kind: CauseType): Option<DriftCauseType> {
    match kind
    case UnexplainedEvaluationDrift => Some(UnexplainedDriftCause)
    case UnauthorizedDeterminerInfluence => Some(UnauthorizedInfluence)
    case EvaluatorVersionChanged => Some(EvaluatorVersion)
    case RuleVersionChanged => Some(RuleVersion)
    case PolicyIdentityChanged => Some(PolicyIdentity)
    case ThresholdStateChanged => Some(ThresholdState)
    case RefusalBoundaryChanged => Some(RefusalBoundary)
    case EscalationResolverChanged => Some(EscalationResolver)
    case MaterialContextChanged => Some(MaterialContextAmbiguous)
    case QualifierFreshnessChanged => Some(QualifierStateAmbiguous)
    case _ => None
  }

  function Translated(causes: seq<Cause>): seq<DriftCause> {
    if causes == [] then []
    else
      var last := causes[|causes| - 1];
      Translated(causes[..|causes| - 1]) +
      match DriftTypeOf(last.kind) case None => [] case Some(kind) => [DriftCause(kind, last.severity)]
  }

  function KindOf(c: DriftCause): DriftCauseType { c.kind }

  function DriftCauses(causes: seq<Cause>): seq<DriftCause> {
    var found := FirstByKey(KindOf, Translated(causes));
    if found != [] then found else [DriftCause(AttributionInconclusive, Medium)]
  }

  /** `_drift_causes`: the first cause of each drift type. */
  method CollectDriftCauses(causes: seq<Cause>) returns (result: seq<DriftCause>)
    ensures result == DriftCauses(causes)
  {
    result := [];
    var seen: set<DriftCauseType> := {};
    NothingTranslated();
    hide FirstByKey, Keys, DriftTypeOf;
    var k := 0;
    while k < |causes|
      invariant 0 <= k <= |causes|
      invariant result == FirstByKey(KindOf, Translated(causes[..k]))
      invariant seen == Keys(KindOf, Translated(causes[..k]))
    {
      ghost var before, after := Translated(causes[..k]), Translated(causes[..k + 1]);
      assert causes[..k + 1][..k] == causes[..k];
      var kind := DriftTypeOf(causes[k].kind);
      if kind.Some? {
        ghost var added := DriftCause(kind.value, causes[k].severity);
        assert after == before + [added];
        FirstByKeySnoc(KindOf, after, |before|);
        assert after[..|before|] == before && after[..|before| + 1] == after && after[|before|] == added;
        if kind.value !in seen {
          seen := seen + {kind.value};
          result := result + [DriftCause(kind.value, causes[k].severity)];
        }
      } else {
        assert after == before;
      }
      k := k + 1;
    }
    assert causes[..k] == causes;
    if result != [] { return; }
    result := [DriftCause(AttributionInconclusive, Medium)];
  }

  lemma NothingTranslated()
    ensures Translated([]) == [] && FirstByKey(KindOf, []) == [] && Keys(KindOf, []) == {}
  {
  }

  /** Some cause translates to the drift type. */
  predicate Translates(causes: seq<Cause>, t: DriftCauseType) {
    exists k :: 0 <= k < |causes| && DriftTypeOf(causes[k].kind) == Some(t)
  }

  lemma TranslatesSnoc(before: seq<Cause>, last: Cause, t: DriftCauseType)
    ensures Translates(before + [last], t) <==> Translates(before, t) || DriftTypeOf(last.kind) == Some(t)
  {
    hide DriftTypeOf;
    var causes := before + [last];
    assert causes[|before|] == last;
    assert forall k :: 0 <= k < |before| ==> causes[k] == before[k];
  }

  lemma TranslatedSnoc(before: seq<Cause>, last: Cause)
    ensures Translated(before + [last]) == Translated(before) +
            match DriftTypeOf(last.kind) case None => [] case Some(kind) => [DriftCause(kind, last.severity)]
  {
    hide DriftTypeOf;
    assert (before + [last])[..|before|] == before;
  }

  lemma {:induction false} TranslatedKind(causes: seq<Cause>, t: DriftCauseType)
    ensures t in Keys(KindOf, Translated(causes)) <==> Translates(causes, t)
  {
    hide DriftTypeOf, Translated, Translates, Keys;
    if causes == [] {
      NothingTranslated();
      NothingTranslates(t);
    } else {
      var before, last := causes[..|causes| - 1], causes[|causes| - 1];
      assert causes == before + [last];
      TranslatedKind(before, t);
      TranslatesSnoc(before, last, t);
      TranslatedSnoc(before, last);
      if DriftTypeOf(last.kind).Some? {
        KeysSnoc(KindOf, Translated(before), DriftCause(DriftTypeOf(last.kind).value, last.severity));
      } else {
        assert Translated(causes) == Translated(before);
      }
    }
  }

  lemma NothingTranslates(t: DriftCauseType)
    ensures !Translates([], t)
  {
  }

  lemma TranslatedKinds(causes: seq<Cause>)
    ensures forall t :: t in Keys(KindOf, Translated(causes)) <==> Translates(causes, t)
    ensures Keys(KindOf, Translated(causes)) == {} <==> Translated(causes) == []
  {
    forall t ensures t in Keys(KindOf, Translated(causes)) <==> Translates(causes, t) { TranslatedKind(causes, t); }
  }

  /** The kinds of cause behind a type of drift cause; nothing is behind the inconclusive one. */
  ghost predicate Behind(kind: CauseType, t: DriftCauseType) {
    || (t.UnexplainedDriftCause? && kind.UnexplainedEvaluationDrift?)
    || (t.UnauthorizedInfluence? && kind.UnauthorizedDeterminerInfluence?)
    || (t.EvaluatorVersion? && kind.EvaluatorVersionChanged?)
    || (t.RuleVersion? && kind.RuleVersionChanged?)
    || (t.PolicyIdentity? && kind.PolicyIdentityChanged?)
    || (t.ThresholdState? && kind.ThresholdStateChanged?)
    || (t.RefusalBoundary? && kind.RefusalBoundaryChanged?)
    || (t.EscalationResolver? && kind.EscalationResolverChanged?)
    || (t.MaterialContextAmbiguous? && kind.MaterialContextChanged?)
    || (t.QualifierStateAmbiguous? && kind.QualifierFreshnessChanged?)
  }

  lemma TypesAreBehind(kind: CauseType)
    ensures forall t :: DriftTypeOf(kind) == Some(t) <==> Behind(kind, t)
  {
  }

  /** The first cause behind a drift type, with its severity. */
  ghost predicate IsFirst(causes: seq<Cause>, k: nat, c: DriftCause) {
    && k < |causes| && DriftTypeOf(causes[k].kind) == Some(c.kind) && causes[k].severity == c.severity
    && forall m :: 0 <= m < k ==> DriftTypeOf(causes[m].kind) != Some(c.kind)
  }

  lemma {:induction false} FirstOfType(causes: seq<Cause>, c: DriftCause)
    requires c in FirstByKey(KindOf, Translated(causes))
    ensures exists k: nat :: IsFirst(causes, k, c)
  {
    hide DriftTypeOf, Translated, FirstByKey, Keys;
    if causes == [] {
      NothingTranslated();
    } else {
      var n := |causes| - 1;
      var before, last := causes[..n], causes[n];
      assert causes == before + [last];
      TranslatedSnoc(before, last);
      if c in FirstByKey(KindOf, Translated(before)) {
        FirstOfType(before, c);
        var k: nat :| IsFirst(before, k, c);
        assert IsFirst(causes, k, c);
      } else {
        assert DriftTypeOf(last.kind).None? ==> Translated(causes) == Translated(before);
        var added := DriftCause(DriftTypeOf(last.kind).value, last.severity);
        FirstByKeyLast(Translated(before), added);
        assert c == added && added.kind !in Keys(KindOf, Translated(before));
        TranslatedKind(before, added.kind);
        assert forall m :: 0 <= m < n ==> causes[m] == before[m];
        assert IsFirst(causes, n, c);
      }
    }
  }

  lemma FirstByKeyLast(s: seq<DriftCause>, x: DriftCause)
    ensures FirstByKey(KindOf, s + [x]) == FirstByKey(KindOf, s) + if x.kind in Keys(KindOf, s) then [] else [x]
  {
    var longer := s + [x];
    assert longer[..|s|] == s && longer[..|s| + 1] == longer;
    FirstByKeySnoc(KindOf, longer, |s|);
  }

  /** The list is never empty, no drift type appears twice, a type appears exactly if some cause is behind it, with
      the severity of the first such cause, and the inconclusive one stands in, at medium severity, exactly if no
      cause is behind any type. */
  lemma DriftCausesMeaning(causes: seq<Cause>)
    ensures var r := DriftCauses(causes);
            && r != []
            && (forall i, j :: 0 <= i < j < |r| ==> r[i].kind != r[j].kind)
            && (forall t :: t != AttributionInconclusive ==>
                  (t in Keys(KindOf, r) <==> exists k :: 0 <= k < |causes| && Behind(causes[k].kind, t)))
            && (AttributionInconclusive in Keys(KindOf, r) <==>
                  forall k, t :: 0 <= k < |causes| ==> !Behind(causes[k].kind, t))
            && (forall c :: c in r ==> if c.kind == AttributionInconclusive then c.severity == Medium
                                       else exists k :: StartsType(causes, k, c))
  {
    DriftCausesByType(causes);
    DriftSeverities(causes);
    hide DriftTypeOf, Behind, DriftCauses, Keys;
    forall k | 0 <= k < |causes|
        ensures forall t :: DriftTypeOf(causes[k].kind) == Some(t) <==> Behind(causes[k].kind, t)
    {
      TypesAreBehind(causes[k].kind);
    }
  }

  /** The first cause behind a drift type, and its severity. */
  ghost predicate StartsType(causes: seq<Cause>, k: int, c: DriftCause) {
    && 0 <= k < |causes| && Behind(causes[k].kind, c.kind) && causes[k].severity == c.severity
    && forall m :: 0 <= m < k ==> !Behind(causes[m].kind, c.kind)
  }

  lemma DriftSeverities(causes: seq<Cause>)
    ensures forall c :: c in DriftCauses(causes) ==>
        if c.kind == AttributionInconclusive then c.severity == Medium else exists k :: StartsType(causes, k, c)
  {
    hide DriftTypeOf, Behind, FirstByKey, Translated;
    var found := FirstByKey(KindOf, Translated(causes));
    forall c | c in found ensures c.kind != AttributionInconclusive && exists k :: StartsType(causes, k, c) {
      FirstOfType(causes, c);
      var k: nat :| IsFirst(causes, k, c);
      forall m | 0 <= m <= k ensures DriftTypeOf(causes[m].kind) == Some(c.kind) <==> Behind(causes[m].kind, c.kind) {
        TypesAreBehind(causes[m].kind);
      }
      NeverInconclusive();
      assert StartsType(causes, k, c);
    }
  }

  lemma DriftCausesByType(causes: seq<Cause>)
    ensures var r := DriftCauses(causes);
            && r != []
            && (forall i, j :: 0 <= i < j < |r| ==> r[i].kind != r[j].kind)
            && (forall t :: t != AttributionInconclusive ==>
                  (t in Keys(KindOf, r) <==> exists k :: 0 <= k < |causes| && DriftTypeOf(causes[k].kind) == Some(t)))
            && (AttributionInconclusive in Keys(KindOf, r) <==>
                  forall k :: 0 <= k < |causes| ==> DriftTypeOf(causes[k].kind).None?)
  {
    FirstByKeyOnce(KindOf, Translated(causes));
    TranslatedKinds(causes);
    var found := FirstByKey(KindOf, Translated(causes));
    var inconclusive := DriftCause(AttributionInconclusive, Medium);
    assert Keys(KindOf, [inconclusive]) == {AttributionInconclusive} by { assert [inconclusive][..0] == []; }
    NeverInconclusive();
    hide FirstByKey, Translated, DriftTypeOf;
    forall i, j | 0 <= i < j < |found| ensures found[i].kind != found[j].kind {
      assert KindOf(found[i]) != KindOf(found[j]);
    }
    if found == [] {
      assert Keys(KindOf, found) == {};
    } else {
      assert Translated(causes) != [];
      var t :| t in Keys(KindOf, Translated(causes));
    }
  }

  lemma NeverInconclusive()
    ensures forall kind :: DriftTypeOf(kind) != Some(AttributionInconclusive)
  {
  }

  // ---------------------------------------------------------------- both stages together

  function ActionName(a: GovernanceAction): AttributionAction {
    match a
    case NoAction => None_
    case Review => Review_
    case Escalate => Escalate_
    case MarkEvaluationDrift => MarkDrift_
  }

  function FromAttribution(a: Attribution): Input {
    Input(a.causes, a.outcomeChanged, a.unresolvedPresent, Some(ActionName(a.action)))
  }

  /** The detection of a pair of receipts. */
  function Detect(prior: Receipt, current: Receipt, normalize: Json -> string, render: Json -> string): Classification
    requires Comparable(prior) && Comparable(current)
  {
    Classify(FromAttribution(Attribute(prior, current, normalize, render)))
  }

  predicate GovernanceVersionsDiffer(a: View, b: View) {
    a.evaluator != b.evaluator || a.policy != b.policy || a.ruleSet != b.ruleSet
  }

  /** What classification sees of the causes of two receipts. */
  lemma ClassifyingCauses(a: View, b: View)
    ensures var causes := Causes(a, b);
            && (HasCause(causes, UnexplainedEvaluationDrift) <==>
                a.outcome != b.outcome && ProjectionsAgree(a, b) && !b.unauthorized)
            && (HasCause(causes, UnauthorizedDeterminerInfluence) <==> b.unauthorized)
            && (HasCause(causes, EvaluatorVersionChanged) <==> a.evaluator != b.evaluator)
            && (HasCause(causes, PolicyIdentityChanged) <==> a.policy != b.policy)
            && (HasCause(causes, RuleVersionChanged) <==> a.ruleSet != b.ruleSet)
            && !HasCause(causes, ThresholdStateChanged)
            && !HasCause(causes, RefusalBoundaryChanged)
            && !HasCause(causes, EscalationResolverChanged)
    ensures ProjectionsAgree(a, b) ==> !GovernanceVersionsDiffer(a, b)
  {
    CausesHaveCause(a, b, UnexplainedEvaluationDrift);
    CausesHaveCause(a, b, UnauthorizedDeterminerInfluence);
    CausesHaveCause(a, b, EvaluatorVersionChanged);
    CausesHaveCause(a, b, PolicyIdentityChanged);
    CausesHaveCause(a, b, RuleVersionChanged);
    CausesHaveCause(a, b, ThresholdStateChanged);
    CausesHaveCause(a, b, RefusalBoundaryChanged);
    CausesHaveCause(a, b, EscalationResolverChanged);
    hide Causes, HasCause;
  }

  lemma StatusFromCauses(i: Input)
    requires !HasCause(i.causes, ThresholdStateChanged)
    requires !HasCause(i.causes, RefusalBoundaryChanged) && !HasCause(i.causes, EscalationResolverChanged)
    requires i.unresolvedPresent <==> HasCause(i.causes, UnexplainedEvaluationDrift)
    ensures Classify(i).status ==
              if HasCause(i.causes, UnexplainedEvaluationDrift) then Unexplained
              else if HasCause(i.causes, UnauthorizedDeterminerInfluence) then Confirmed
              else if HasCause(i.causes, EvaluatorVersionChanged) || HasCause(i.causes, RuleVersionChanged) ||
                      HasCause(i.causes, PolicyIdentityChanged) then Suspected
              else NotDetected
  {
    hide HasCause;
  }

  /** A detection is reported exactly under a status other than "not detected". */
  lemma DetectedIffStatus(i: Input)
    ensures Classify(i).detected <==> !Classify(i).status.NotDetected?
  {
    hide HasCause;
  }

  /** End to end, which status a detection has: the unauthorised determiner outranks changed versions, and the
      non-deterministic status is never reached. */
  lemma StatusTable(prior: Receipt, current: Receipt, normalize: Json -> string, render: Json -> string)
    requires Comparable(prior) && Comparable(current)
    ensures var a, b := ViewOf(prior, normalize), ViewOf(current, normalize);
            Detect(prior, current, normalize, render).status ==
              if b.unauthorized then Confirmed
              else if GovernanceVersionsDiffer(a, b) then Suspected
              else if a.outcome != b.outcome && ProjectionsAgree(a, b) then Unexplained
              else NotDetected
  {
    var a, b := ViewOf(prior, normalize), ViewOf(current, normalize);
    ClassifyingCauses(a, b);
    hide ViewOf, Causes, HasCause, ProjectionsAgree, OutcomeText, RecommendedAction, AttributionConfidence, Classify;
    StatusFromCauses(FromAttribution(Attribute(prior, current, normalize, render)));
  }

  /** End to end: drift is detected exactly if an evaluator version, policy identity or rule-set version differs,
      or the current receipt has an unauthorised determiner, or the outcome changed and nothing else did. */
  lemma DriftDetectedIff(prior: Receipt, current: Receipt, normalize: Json -> string, render: Json -> string)
    requires Comparable(prior) && Comparable(current)
    ensures var a, b := ViewOf(prior, normalize), ViewOf(current, normalize);
            Detect(prior, current, normalize, render).detected <==>
              GovernanceVersionsDiffer(a, b) || b.unauthorized || (a.outcome != b.outcome && ProjectionsAgree(a, b))
  {
    hide ViewOf, ProjectionsAgree, Classify, Attribute;
    StatusTable(prior, current, normalize, render);
    DetectedIffStatus(FromAttribution(Attribute(prior, current, normalize, render)));
  }

  predicate OnlyContextOrQualifiersDiffer(a: View, b: View) {
    a.authority == b.authority && a.consequence == b.consequence && a.determiners == b.determiners
  }

  /** What two receipts' detection says, by what differs between them. */
  ghost function TableEntry(a: View, b: View, outcomeChanged: bool): Classification {
    if b.unauthorized then Classification(true, Confirmed, Inconsistent, RequiresReview, EscalateDetection)
    else if a.evaluator != b.evaluator then
      Classification(true, Suspected, UnknownConsistency, PartiallyExplained, RequalifyEvaluator)
    else if a.policy != b.policy || a.ruleSet != b.ruleSet then
      Classification(true, Suspected, UnknownConsistency, PartiallyExplained, ReviewDetection)
    else if ProjectionsAgree(a, b) && a.outcome != b.outcome then
      Classification(true, Unexplained, Inconsistent, UnexplainedDrift, MarkEvaluationDrift_)
    else if !ProjectionsAgree(a, b) && OnlyContextOrQualifiersDiffer(a, b) then
      Classification(false, NotDetected, NotComparable, FullyExplained, if outcomeChanged then ReviewDetection
          else NoDetectionAction)
    else if outcomeChanged then Classification(false, NotDetected, NotComparable, FullyExplained, ReviewDetection)
    else Classification(false, NotDetected, Consistent, FullyExplained, NoDetectionAction)
  }

  /** Both stages together, in full: every field of the detection from what differs between the receipts. */
  lemma DetectionTable(prior: Receipt, current: Receipt, normalize: Json -> string, render: Json -> string)
    requires Comparable(prior) && Comparable(current)
    ensures Detect(prior, current, normalize, render) ==
            TableEntry(ViewOf(prior, normalize), ViewOf(current, normalize),
                Attribute(prior, current, normalize, render).outcomeChanged)
  {
    hide ViewOf, Causes, HasCause, ProjectionsAgree, OutcomeText, AttributionConfidence, RecommendedAction, Classify,
         MappedAction, OnlyContextOrQualifiersDiffer;
    var a, b := ViewOf(prior, normalize), ViewOf(current, normalize);
    var attribution := Attribute(prior, current, normalize, render);
    ClassifyFromViews(a, b, FromAttribution(attribution));
  }

  lemma ClassifyFromViews(a: View, b: View, i: Input)
    requires i.causes == Causes(a, b) && (i.unresolvedPresent <==> HasCause(i.causes, UnexplainedEvaluationDrift))
    requires i.action == Some(ActionName(RecommendedAction(i.outcomeChanged, i.causes)))
    ensures Classify(i) == TableEntry(a, b, i.outcomeChanged)
  {
    hide Causes, HasCause, ProjectionsAgree, RecommendedAction, IsDriftLike, IsContextOrQualifier,
         OnlyContextOrQualifiersDiffer;
    ClassifyingCauses(a, b);
    CausesShape(a, b);
    DriftLikeOnly(i.causes);
    if !b.unauthorized && !GovernanceVersionsDiffer(a, b) { ContextOnly(a, b); }
    if !b.unauthorized && !(a.outcome != b.outcome && ProjectionsAgree(a, b))
        && (i.outcomeChanged || !ProjectionsAgree(a, b)) {
      SuggestedAction(a, b, i.outcomeChanged);
    }
  }

  lemma ContextOnly(a: View, b: View)
    requires !b.unauthorized && !GovernanceVersionsDiffer(a, b)
    ensures var causes := Causes(a, b);
            (forall k :: 0 <= k < |causes| ==> IsContextOrQualifier(causes[k].kind)) <==>
            !ProjectionsAgree(a, b) && OnlyContextOrQualifiersDiffer(a, b)
  {
    hide Causes, QualifiersDiffer;
    var causes := Causes(a, b);
    CausesHaveCause(a, b, AuthorityStateChanged);
    CausesHaveCause(a, b, ConsequenceClassChanged);
    CausesHaveCause(a, b, AuthorizedDeterminerChanged);
    CausesHaveCause(a, b, UnexplainedEvaluationDrift);
    CausesHaveCause(a, b, GovernedStateChanged);
    if !ProjectionsAgree(a, b) && OnlyContextOrQualifiersDiffer(a, b) {
      forall k | 0 <= k < |causes| ensures IsContextOrQualifier(causes[k].kind) {
        assert HasCause(causes, causes[k].kind);
        CausesHaveCause(a, b, causes[k].kind);
      }
    }
  }

  lemma DriftLikeOnly(causes: seq<Cause>)
    ensures (exists k :: 0 <= k < |causes| && IsDriftLike(causes[k].kind)) <==>
            || HasCause(causes, UnexplainedEvaluationDrift) || HasCause(causes, UnauthorizedDeterminerInfluence)
            || HasCause(causes, EvaluatorVersionChanged) || HasCause(causes, RuleVersionChanged)
            || HasCause(causes, PolicyIdentityChanged) || HasCause(causes, ThresholdStateChanged)
            || HasCause(causes, RefusalBoundaryChanged) || HasCause(causes, EscalationResolverChanged)
  {
    if k :| 0 <= k < |causes| && IsDriftLike(causes[k].kind) {
      assert HasCause(causes, causes[k].kind);
    }
  }

  /** The attribution proposes no action only if the outcome is the same and nothing was found. */
  lemma SuggestedAction(a: View, b: View, outcomeChanged: bool)
    requires !b.unauthorized && !(a.outcome != b.outcome && ProjectionsAgree(a, b))
    requires outcomeChanged || !ProjectionsAgree(a, b)
    ensures RecommendedAction(outcomeChanged, Causes(a, b)) == Review
  {
    hide Causes, ProjectionsAgree;
    var causes := Causes(a, b);
    CausesHaveCause(a, b, UnauthorizedDeterminerInfluence);
    CausesHaveCause(a, b, UnexplainedEvaluationDrift);
    CausesHaveCause(a, b, GovernedStateChanged);
    CausesShape(a, b);
    if causes[0].kind == GovernedStateChanged { assert HasCause(causes, GovernedStateChanged); }
  }

  /** The unresolved-delta flag of a generated attribution never decides anything. */
  lemma UnresolvedFlagIsIdle(prior: Receipt, current: Receipt, normalize: Json -> string, render: Json -> string)
    requires Comparable(prior) && Comparable(current)
    ensures var input := FromAttribution(Attribute(prior, current, normalize, render));
            Classify(input) == Classify(input.(unresolvedPresent := false))
  {
    hide Causes, HasCause, ViewOf;
  }

  // ---------------------------------------------------------------- validated receipts

  /** What the receipt schema demands of the fields the two stages read. */
  predicate Validated(r: Receipt) {
    && "outcome" in r && r["outcome"].Str?
    && r["outcome"].text in {"allow", "escalate", "refuse", "error", "undetermined"}
    && "policy_identity" in r && r["policy_identity"].Obj?
    && "consequence_class" in r && r["consequence_class"].Obj?
    && "material_context" in r && r["material_context"].Obj?
  }

  /** Rendering a string as text is the identity. */
  ghost predicate RendersStrings(render: Json -> string) { forall s :: render(Str(s)) == s }

  /** On validated receipts nothing fails, and both stages mean the same by a changed outcome. */
  lemma ValidatedFlagsAgree(prior: Receipt, current: Receipt, normalize: Json -> string, render: Json -> string)
    requires Validated(prior) && Validated(current) && RendersStrings(render)
    ensures Comparable(prior) && Comparable(current)
    ensures Attribute(prior, current, normalize, render).outcomeChanged <==> prior["outcome"] != current["outcome"]
    ensures ViewOf(prior, normalize).outcome == prior["outcome"]
        && ViewOf(current, normalize).outcome == current["outcome"]
  {
    hide Causes, HasCause, Policy, Consequence, Context, Qualifiers, DeterminerIdentitySet, HasUnauthorized;
  }

  /** What the detection of two validated receipts says, by nothing but what stands under their keys. */
  ghost function ValidatedEntry(prior: Receipt, current: Receipt, normalize: Json -> string): Classification {
    var outcomeChanged := At(prior, "outcome") != At(current, "outcome");
    if UsesUnauthorized(current, normalize) then
      Classification(true, Confirmed, Inconsistent, RequiresReview, EscalateDetection)
    else if At(prior, "evaluator_version") != At(current, "evaluator_version") then
      Classification(true, Suspected, UnknownConsistency, PartiallyExplained, RequalifyEvaluator)
    else if PoliciesDiffer(prior, current) || At(prior, "rule_set_version") != At(current, "rule_set_version") then
      Classification(true, Suspected, UnknownConsistency, PartiallyExplained, ReviewDetection)
    else if NothingDiffers(prior, current) then
      if outcomeChanged then Classification(true, Unexplained, Inconsistent, UnexplainedDrift, MarkEvaluationDrift_)
      else Classification(false, NotDetected, Consistent, FullyExplained, NoDetectionAction)
    else if AuthorityOf(prior) == AuthorityOf(current) && !ConsequencesDiffer(prior, current)
        && SameDeterminers(prior, current) then
      Classification(false, NotDetected, NotComparable, FullyExplained,
                     if outcomeChanged then ReviewDetection else NoDetectionAction)
    else if outcomeChanged then Classification(false, NotDetected, NotComparable, FullyExplained, ReviewDetection)
    else Classification(false, NotDetected, Consistent, FullyExplained, NoDetectionAction)
  }

  /** Both stages together on validated receipts, in full: every field of the detection is decided by what stands
      under the keys of the receipts. */
  lemma ValidatedDetectionTable(prior: Receipt, current: Receipt, normalize: Json -> string, render: Json -> string)
    requires Validated(prior) && Validated(current) && RendersStrings(render)
    ensures Comparable(prior) && Comparable(current)
    ensures Detect(prior, current, normalize, render) == ValidatedEntry(prior, current, normalize)
  {
    hide *;
    ValidatedFlagsAgree(prior, current, normalize, render);
    DetectionTable(prior, current, normalize, render);
    ViewsSay(prior, current, normalize);
    ViewsDiffer(prior, current, normalize);
    EntryOfReceipts(prior, current, normalize, ViewOf(prior, normalize), ViewOf(current, normalize));
  }

  lemma EntryOfReceipts(prior: Receipt, current: Receipt, normalize: Json -> string, a: View, b: View)
    requires a.evaluator == At(prior, "evaluator_version") && b.evaluator == At(current, "evaluator_version")
    requires a.ruleSet == At(prior, "rule_set_version") && b.ruleSet == At(current, "rule_set_version")
    requires a.authority == AuthorityOf(prior) && b.authority == AuthorityOf(current)
    requires a.outcome == At(prior, "outcome") && b.outcome == At(current, "outcome")
    requires a.policy != b.policy <==> PoliciesDiffer(prior, current)
    requires a.consequence != b.consequence <==> ConsequencesDiffer(prior, current)
    requires a.determiners == b.determiners <==> SameDeterminers(prior, current)
    requires ProjectionsAgree(a, b) <==> NothingDiffers(prior, current)
    requires b.unauthorized <==> UsesUnauthorized(current, normalize)
    ensures TableEntry(a, b, a.outcome != b.outcome) == ValidatedEntry(prior, current, normalize)
  {
    hide ProjectionsAgree, NothingDiffers, PoliciesDiffer, ConsequencesDiffer, SameDeterminers, UsesUnauthorized, At,
         AuthorityOf;
  }

  /** So nothing is proposed exactly if the outcome is the same, no version differs, no determiner is unauthorised. */
  lemma NoActionIff(prior: Receipt, current: Receipt, normalize: Json -> string, render: Json -> string)
    requires Validated(prior) && Validated(current) && RendersStrings(render)
    ensures Comparable(prior) && Comparable(current)
    ensures Detect(prior, current, normalize, render).action.NoDetectionAction? <==>
            && prior["outcome"] == current["outcome"]
            && At(prior, "evaluator_version") == At(current, "evaluator_version")
            && At(prior, "rule_set_version") == At(current, "rule_set_version")
            && !PoliciesDiffer(prior, current) && !UsesUnauthorized(current, normalize)
  {
    hide *;
    ValidatedDetectionTable(prior, current, normalize, render);
    EntryWithoutAction(prior, current, normalize);
  }

  lemma EntryWithoutAction(prior: Receipt, current: Receipt, normalize: Json -> string)
    requires Validated(prior) && Validated(current)
    ensures ValidatedEntry(prior, current, normalize).action.NoDetectionAction? <==>
            && prior["outcome"] == current["outcome"]
            && At(prior, "evaluator_version") == At(current, "evaluator_version")
            && At(prior, "rule_set_version") == At(current, "rule_set_version")
            && !PoliciesDiffer(prior, current) && !UsesUnauthorized(current, normalize)
  {
    hide NothingDiffers, PoliciesDiffer, ConsequencesDiffer, SameDeterminers, UsesUnauthorized, AuthorityOf;
  }

  // ---------------------------------------------------------------- receipts that were not validated

  /** Where validation is skipped because its package cannot be imported, a receipt may lack its outcome, and then
      the two stages can mean different things by a changed outcome: the comparison looks at the raw field, the
      attribution at its text with a default.  For outcomes that are strings if present they disagree exactly if
      one receipt has none and the other says "undetermined". */
  lemma OutcomeFlagsDisagreeIff(prior: Receipt, current: Receipt, normalize: Json -> string, render: Json -> string)
    requires Comparable(prior) && Comparable(current) && RendersStrings(render)
    requires ("outcome" in prior ==> prior["outcome"].Str?) && ("outcome" in current ==> current["outcome"].Str?)
    ensures Attribute(prior, current, normalize, render).outcomeChanged !=
            (ViewOf(prior, normalize).outcome != ViewOf(current, normalize).outcome) <==>
            || ("outcome" !in prior && "outcome" in current && current["outcome"] == Str("undetermined"))
            || ("outcome" !in current && "outcome" in prior && prior["outcome"] == Str("undetermined"))
  {
    hide Causes, HasCause, Policy, Consequence, Context, Qualifiers, DeterminerIdentitySet, HasUnauthorized;
  }

  /** An instance, which validation would reject: unexplained drift together with an unchanged outcome. */
  lemma UnexplainedWithoutOutcomeChange(normalize: Json -> string, render: Json -> string)
    ensures var prior: Receipt := map[];
            var current: Receipt := map["outcome" := Str("undetermined")];
            && !Validated(prior) && Comparable(prior) && Comparable(current)
            && !Attribute(prior, current, normalize, render).outcomeChanged
            && Detect(prior, current, normalize, render).status == Unexplained
  {
    var prior: Receipt := map[];
    var current: Receipt := map["outcome" := Str("undetermined")];
    DistinctKeys();
    assert Entries(current, "qualifier_state") == [] && Entries(current, "authorized_determiners_used") == [];
    var a, b := ViewOf(prior, normalize), ViewOf(current, normalize);
    assert a == b.(outcome := Null);
    assert ProjectionsAgree(a, b);
    StatusTable(prior, current, normalize, render);
  }

  lemma DistinctKeys()
    ensures forall key | key in [
              "evaluator_version", "policy_identity", "rule_set_version", "authority_evidence_refs", "qualifier_state",
              "consequence_class", "material_context", "authorized_determiners_used"] :: key != "outcome"
  {
    assert "outcome"[0] == 'o';
  }
}
