/** The impact categories and the recommended action of `scripts/demo/generate_legitimacy_impact_review.py`. */
module LegitimacyReview {
  import opened Lists
  import opened Optional

  datatype Category =
    | AuthorityScopeExpansion
    | TrustedAuthoritySourceChanged
    | PolicySourceChanged
    | HumanOversightWeakened
    | RefusalBoundaryRelaxed
    | EscalationRequirementReduced
    | AuditabilityReduced
    | ReplayabilityReduced
    | HighRiskAdmissibilityExpanded
    | EvaluationBehaviorChanged
    | RootAuthorityChanged
    | ConstitutionalTrustAnchorChanged
    | UnknownLegitimacyImpact

  const CATEGORY_ORDER: seq<Category> := [
    AuthorityScopeExpansion, TrustedAuthoritySourceChanged, PolicySourceChanged, HumanOversightWeakened,
    RefusalBoundaryRelaxed, EscalationRequirementReduced, AuditabilityReduced, ReplayabilityReduced,
    HighRiskAdmissibilityExpanded, EvaluationBehaviorChanged, RootAuthorityChanged,
    ConstitutionalTrustAnchorChanged, UnknownLegitimacyImpact]

  const HIGH_SEVERITY_CATEGORIES: set<Category> := {
    AuthorityScopeExpansion, HumanOversightWeakened, RefusalBoundaryRelaxed, EscalationRequirementReduced,
    HighRiskAdmissibilityExpanded, RootAuthorityChanged, ConstitutionalTrustAnchorChanged}

  /** `FLAG_TO_CATEGORY.get`. */
  function CategoryOfFlag(flag: string): Option<Category> {
    if flag == "authority_scope_expanded" then Some(AuthorityScopeExpansion)
    else if flag == "human_oversight_weakened" then Some(HumanOversightWeakened)
    else if flag == "refusal_boundary_relaxed" then Some(RefusalBoundaryRelaxed)
    else if flag == "escalation_requirement_reduced" then Some(EscalationRequirementReduced)
    else if flag == "policy_source_changed" then Some(PolicySourceChanged)
    else if flag == "evaluator_behavior_changed" then Some(EvaluationBehaviorChanged)
    else if flag == "trusted_authority_source_changed" then Some(TrustedAuthoritySourceChanged)
    else if flag == "auditability_reduced" then Some(AuditabilityReduced)
    else if flag == "replayability_reduced" then Some(ReplayabilityReduced)
    else None
  }

  datatype Scope = Scope(expanded: bool, expansionType: string)

  /** A trajectory monitor, as far as the review looks at it. */
  datatype Monitor = Monitor(scope: Option<Scope>, status: string, action: Option<string>, signals: seq<string>)

  /** What a review is computed from.  `flags` are the non-empty strings of `legitimacy_impact_flags`; `highRisk`
      is `_has_high_risk_evidence`, which does not look at the flags. */
  datatype Input = Input(changedType: string, flags: seq<string>, highRisk: bool, monitor: Option<Monitor>)

  predicate IsSuspicious(status: string) {
    || status == "suspicious" || status == "drift_detected"
    || status == "strategically_shaped" || status == "non_deterministically_governed"
  }

  /** `_legitimacy_impact_detected`. */
  predicate ImpactDetected(i: Input) {
    if |i.flags| > 0 then true
    else if i.changedType == "root_authority_manifest" || i.changedType == "evaluation_function_manifest" then true
    else if i.monitor.None? then false
    else if i.monitor.value.scope.Some? && i.monitor.value.scope.value.expanded then true
    else if IsSuspicious(i.monitor.value.status) then true
    else i.monitor.value.action.Some? && i.monitor.value.action.value != "none"
  }

  // ---------------------------------------------------------------- the categories as sets

  function FromFlags(flags: seq<string>): set<Category> {
    if flags == [] then {} else FromFlags(flags[..|flags| - 1]) + FromFlag(flags[|flags| - 1])
  }

  function FromFlag(flag: string): set<Category> {
    match CategoryOfFlag(flag)
    case None => {}
    case Some(category) => {category}
  }

  function FromType(changedType: string): set<Category> {
    if changedType == "root_authority_manifest" then {RootAuthorityChanged, ConstitutionalTrustAnchorChanged}
    else if changedType == "evaluation_function_manifest" then {EvaluationBehaviorChanged}
    else {}
  }

  function FromScope(scope: Scope): set<Category> {
    (if scope.expanded || scope.expansionType == "delegated_authority_expansion"
     then {AuthorityScopeExpansion} else {}) +
    (if scope.expansionType == "refusal_boundary_relaxation" then {RefusalBoundaryRelaxed} else {}) +
    (if scope.expansionType == "escalation_requirement_reduction" then {EscalationRequirementReduced} else {})
  }

  function FromSignal(signal: string, highRisk: bool): set<Category> {
    if signal == "admissibility_envelope_expansion" then
      if highRisk then {HighRiskAdmissibilityExpanded} else {AuthorityScopeExpansion}
    else if signal == "delegated_scope_widening" then {AuthorityScopeExpansion}
    else if signal == "strategic_admissibility_drift" then
      if highRisk then {HighRiskAdmissibilityExpanded} else {UnknownLegitimacyImpact}
    else {}
  }

  function FromSignals(signals: seq<string>, highRisk: bool): set<Category> {
    if signals == [] then {}
    else FromSignals(signals[..|signals| - 1], highRisk) + FromSignal(signals[|signals| - 1], highRisk)
  }

  function FromMonitor(i: Input): set<Category> {
    if i.monitor.None? then {}
    else
      (if i.monitor.value.scope.Some? then FromScope(i.monitor.value.scope.value) else {}) +
      FromSignals(i.monitor.value.signals, i.highRisk)
  }

  /** Everything some piece of evidence speaks for. */
  function Collected(i: Input): set<Category> {
    FromFlags(i.flags) + FromType(i.changedType) +
    (if i.highRisk then {HighRiskAdmissibilityExpanded} else {}) + FromMonitor(i)
  }

  function Categories(i: Input): set<Category> {
    if Collected(i) == {} then {UnknownLegitimacyImpact}
    else if ImpactDetected(i) then Collected(i) - {UnknownLegitimacyImpact}
    else Collected(i)
  }

  function Ordered(categories: set<Category>): seq<Category> {
    Filter((c: Category) => c in categories, CATEGORY_ORDER)
  }

  /** `classify_impact_categories`: the loops add to and discard from one set. */
  method ClassifyImpactCategories(i: Input) returns (result: seq<Category>)
    ensures result == Ordered(Categories(i))
  {
    hide CategoryOfFlag, Ordered, FromScope, FromSignals, ImpactDetected;
    var categories := AddFlags(i.flags);
    if i.changedType == "root_authority_manifest" {
      categories := categories + {RootAuthorityChanged};
      categories := categories + {ConstitutionalTrustAnchorChanged};
    }
    if i.changedType == "evaluation_function_manifest" { categories := categories + {EvaluationBehaviorChanged}; }
    assert categories == FromFlags(i.flags) + FromType(i.changedType);
    if i.highRisk { categories := categories + {HighRiskAdmissibilityExpanded}; }
    if i.monitor.Some? {
      if i.monitor.value.scope.Some? { categories := AddScope(categories, i.monitor.value.scope.value); }
      categories := AddSignals(categories, i.monitor.value.signals, i.highRisk);
    }
    assert categories == Collected(i);
    if categories == {} {
      categories := categories + {UnknownLegitimacyImpact};
    } else if ImpactDetected(i) {
      categories := categories - {UnknownLegitimacyImpact};
    }
    assert categories == Categories(i);
    return Ordered(categories);
  }

  method AddFlags(flags: seq<string>) returns (categories: set<Category>)
    ensures categories == FromFlags(flags)
  {
    hide CategoryOfFlag;
    categories := {};
    var k := 0;
    while k < |flags|
      invariant 0 <= k <= |flags|
      invariant categories == FromFlags(flags[..k])
    {
      assert flags[..k + 1][..k] == flags[..k];
      var category := CategoryOfFlag(flags[k]);
      if category.Some? { categories := categories + {category.value}; }
      k := k + 1;
    }
    assert flags[..k] == flags;
  }

  method AddScope(before: set<Category>, scope: Scope) returns (categories: set<Category>)
    ensures categories == before + FromScope(scope)
  {
    categories := before;
    if scope.expanded { categories := categories + {AuthorityScopeExpansion}; }
    if scope.expansionType == "delegated_authority_expansion" { categories := categories + {AuthorityScopeExpansion}; }
    if scope.expansionType == "refusal_boundary_relaxation" { categories := categories + {RefusalBoundaryRelaxed}; }
    if scope.expansionType == "escalation_requirement_reduction" {
      categories := categories + {EscalationRequirementReduced};
    }
  }

  method AddSignals(before: set<Category>, signals: seq<string>, highRisk: bool) returns (categories: set<Category>)
    ensures categories == before + FromSignals(signals, highRisk)
  {
    categories := before;
    var k := 0;
    while k < |signals|
      invariant 0 <= k <= |signals|
      invariant categories == before + FromSignals(signals[..k], highRisk)
    {
      assert signals[..k + 1][..k] == signals[..k];
      ghost var previous := categories;
      categories := AddSignal(categories, signals[k], highRisk);
      k := k + 1;
    }
    assert signals[..k] == signals;
  }

  method AddSignal(before: set<Category>, signal: string, highRisk: bool) returns (categories: set<Category>)
    ensures categories == before + FromSignal(signal, highRisk)
  {
    categories := before;
    if signal == "admissibility_envelope_expansion" {
      if highRisk { categories := categories + {HighRiskAdmissibilityExpanded}; }
      else { categories := categories + {AuthorityScopeExpansion}; }
    } else if signal == "delegated_scope_widening" {
      categories := categories + {AuthorityScopeExpansion};
    } else if signal == "strategic_admissibility_drift" {
      if highRisk { categories := categories + {HighRiskAdmissibilityExpanded}; }
      else { categories := categories + {UnknownLegitimacyImpact}; }
    }
  }

  // ---------------------------------------------------------------- the order of the result

  function Position(c: Category): nat {
    match c
    case AuthorityScopeExpansion => 0
    case TrustedAuthoritySourceChanged => 1
    case PolicySourceChanged => 2
    case HumanOversightWeakened => 3
    case RefusalBoundaryRelaxed => 4
    case EscalationRequirementReduced => 5
    case AuditabilityReduced => 6
    case ReplayabilityReduced => 7
    case HighRiskAdmissibilityExpanded => 8
    case EvaluationBehaviorChanged => 9
    case RootAuthorityChanged => 10
    case ConstitutionalTrustAnchorChanged => 11
    case UnknownLegitimacyImpact => 12
  }

  predicate Earlier(c: Category, d: Category) { Position(c) < Position(d) }

  lemma CategoryOrderIsComplete()
    ensures forall c: Category :: c in CATEGORY_ORDER
    ensures Pairwise(Earlier, CATEGORY_ORDER)
  {
    forall c: Category ensures c in CATEGORY_ORDER { assert CATEGORY_ORDER[Position(c)] == c; }
    forall j, k | 0 <= j < k < |CATEGORY_ORDER| ensures Earlier(CATEGORY_ORDER[j], CATEGORY_ORDER[k]) {
      assert Position(CATEGORY_ORDER[j]) == j && Position(CATEGORY_ORDER[k]) == k;
    }
  }

  /** Listing the categories loses none of them, and every one comes after its predecessors in CATEGORY_ORDER,
      so none is repeated. */
  lemma OrderedListsEachOnce(categories: set<Category>)
    ensures forall c :: c in Ordered(categories) <==> c in categories
    ensures Pairwise(Earlier, Ordered(categories))
    ensures Ordered(categories) == [] <==> categories == {}
  {
    CategoryOrderIsComplete();
    hide CATEGORY_ORDER, Pairwise;
    var keep := (c: Category) => c in categories;
    FilterKeeps(keep, CATEGORY_ORDER);
    FilterKeepsPairwise(keep, Earlier, CATEGORY_ORDER);
    if categories != {} {
      var c :| c in categories;
      assert c in Ordered(categories);
    } else {
      FilterNone(keep, CATEGORY_ORDER);
    }
  }

  // ---------------------------------------------------------------- the action ladder

  datatype Action = NoAction | Review | Escalate | RequalifyEvaluator | RequalifyAuthority | Rollback | MultiPartyReview
                  | ExternalAuditFlag

  /** The rungs of the code's ladder, from the bottom. */
  function Rung(a: Action): nat {
    match a
    case NoAction => 0
    case Review => 1
    case Escalate => 2
    case RequalifyEvaluator => 3
    case RequalifyAuthority => 4
    case Rollback => 5
    case MultiPartyReview => 6
    case ExternalAuditFlag => 7
  }

  /** `classify_recommended_governance_action`. */
  function RecommendedAction(detected: bool, categories: set<Category>, hasRollbackConditions: bool): Action {
    if {ConstitutionalTrustAnchorChanged, RootAuthorityChanged} * categories != {} then ExternalAuditFlag
    else if {AuthorityScopeExpansion, HighRiskAdmissibilityExpanded} <= categories then MultiPartyReview
    else if hasRollbackConditions && categories * HIGH_SEVERITY_CATEGORIES != {} then Rollback
    else if {AuthorityScopeExpansion, TrustedAuthoritySourceChanged} * categories != {} then RequalifyAuthority
    else if EvaluationBehaviorChanged in categories then RequalifyEvaluator
    else if {HumanOversightWeakened, RefusalBoundaryRelaxed, EscalationRequirementReduced} * categories != {}
        then Escalate
    else if detected then Review
    else NoAction
  }

  function ActionFor(i: Input, hasRollbackConditions: bool): Action {
    RecommendedAction(ImpactDetected(i), Categories(i), hasRollbackConditions)
  }

  /** What each action needs, whatever else holds. */
  ghost predicate Triggers(a: Action, detected: bool, categories: set<Category>, hasRollbackConditions: bool) {
    match a
    case ExternalAuditFlag => RootAuthorityChanged in categories || ConstitutionalTrustAnchorChanged in categories
    case MultiPartyReview => AuthorityScopeExpansion in categories && HighRiskAdmissibilityExpanded in categories
    case Rollback =>
      && hasRollbackConditions
      && (|| AuthorityScopeExpansion in categories || HumanOversightWeakened in categories
          || RefusalBoundaryRelaxed in categories || EscalationRequirementReduced in categories
          || HighRiskAdmissibilityExpanded in categories || RootAuthorityChanged in categories
          || ConstitutionalTrustAnchorChanged in categories)
    case RequalifyAuthority =>
      AuthorityScopeExpansion in categories || TrustedAuthoritySourceChanged in categories
    case RequalifyEvaluator => EvaluationBehaviorChanged in categories
    case Escalate =>
      || HumanOversightWeakened in categories || RefusalBoundaryRelaxed in categories
      || EscalationRequirementReduced in categories
    case Review => detected
    case NoAction => true
  }

  lemma Meets(tested: set<Category>, categories: set<Category>)
    ensures tested * categories != {} <==> exists c :: c in tested && c in categories
    ensures tested * categories == categories * tested
  {
    if tested * categories != {} {
      var c :| c in tested * categories;
    }
    if c :| c in tested && c in categories { assert c in tested * categories; }
  }

  /** The recommended action is the highest rung whose trigger holds. */
  lemma ActionIsHighestRung(detected: bool, categories: set<Category>, hasRollbackConditions: bool, a: Action)
    ensures RecommendedAction(detected, categories, hasRollbackConditions) == a <==>
            && Triggers(a, detected, categories, hasRollbackConditions)
            && forall b :: Rung(b) > Rung(a) ==> !Triggers(b, detected, categories, hasRollbackConditions)
  {
    Meets({ConstitutionalTrustAnchorChanged, RootAuthorityChanged}, categories);
    Meets(HIGH_SEVERITY_CATEGORIES, categories);
    Meets({AuthorityScopeExpansion, TrustedAuthoritySourceChanged}, categories);
    Meets({HumanOversightWeakened, RefusalBoundaryRelaxed, EscalationRequirementReduced}, categories);
    forall b | Triggers(b, detected, categories, hasRollbackConditions)
      ensures Rung(b) <= Rung(RecommendedAction(detected, categories, hasRollbackConditions))
    {
    }
    assert forall b, c :: Rung(b) == Rung(c) ==> b == c;
  }

  /** More known categories, or a detection where there was none, never weaken the action. */
  lemma LadderMonotone(detected: bool, detected': bool, small: set<Category>, large: set<Category>,
      hasRollbackConditions: bool)
    requires detected ==> detected'
    requires small - {UnknownLegitimacyImpact} <= large
    ensures Rung(RecommendedAction(detected, small, hasRollbackConditions)) <=
            Rung(RecommendedAction(detected', large, hasRollbackConditions))
  {
    forall c | c in small && c != UnknownLegitimacyImpact ensures c in large {
      assert c in small - {UnknownLegitimacyImpact};
    }
    SharedElement({ConstitutionalTrustAnchorChanged, RootAuthorityChanged}, small, large);
    SharedElement(HIGH_SEVERITY_CATEGORIES, small, large);
    SharedElement({AuthorityScopeExpansion, TrustedAuthoritySourceChanged}, small, large);
    SharedElement({HumanOversightWeakened, RefusalBoundaryRelaxed, EscalationRequirementReduced}, small, large);
  }

  lemma SharedElement(tested: set<Category>, small: set<Category>, large: set<Category>)
    requires UnknownLegitimacyImpact !in tested
    requires forall c :: c in small && c != UnknownLegitimacyImpact ==> c in large
    ensures tested * small != {} ==> tested * large != {} && large * tested != {}
    ensures small * tested == tested * small && large * tested == tested * large
  {
    if tested * small != {} {
      var c :| c in tested * small;
      assert c in tested * large;
    }
  }

  lemma {:induction false} FromFlagsMembers(flags: seq<string>)
    ensures forall c :: c in FromFlags(flags) <==> exists f :: f in flags && c in FromFlag(f)
  {
    hide CategoryOfFlag, FromFlag;
    if flags != [] {
      var before, last := flags[..|flags| - 1], flags[|flags| - 1];
      assert flags == before + [last];
      FromFlagsMembers(before);
    }
  }

  /** Adding legitimacy flags, all else fixed, removes no category but the unknown one and never moves the
      recommended action down the ladder. */
  lemma FlagsAreMonotone(i: Input, flags: seq<string>, hasRollbackConditions: bool)
    requires forall f :: f in i.flags ==> f in flags
    ensures Categories(i) - {UnknownLegitimacyImpact} <= Categories(i.(flags := flags))
    ensures Rung(ActionFor(i, hasRollbackConditions)) <= Rung(ActionFor(i.(flags := flags), hasRollbackConditions))
  {
    var more := i.(flags := flags);
    FromFlagsMembers(i.flags);
    FromFlagsMembers(flags);
    hide FromFlags, FromFlag;
    assert FromFlags(i.flags) <= FromFlags(flags);
    assert FromMonitor(i) == FromMonitor(more);
    assert Collected(i) <= Collected(more);
    if |i.flags| > 0 { assert i.flags[0] in flags; }
    LadderMonotone(ImpactDetected(i), ImpactDetected(more), Categories(i), Categories(more), hasRollbackConditions);
  }

  // ---------------------------------------------------------------- what the evidence speaks for

  ghost predicate ScopeExpanded(i: Input) {
    i.monitor.Some? && i.monitor.value.scope.Some? && i.monitor.value.scope.value.expanded
  }

  /** The flag that speaks for a category. */
  ghost predicate IsFlagOf(f: string, c: Category) {
    || (f == "authority_scope_expanded" && c == AuthorityScopeExpansion)
    || (f == "trusted_authority_source_changed" && c == TrustedAuthoritySourceChanged)
    || (f == "policy_source_changed" && c == PolicySourceChanged)
    || (f == "human_oversight_weakened" && c == HumanOversightWeakened)
    || (f == "refusal_boundary_relaxed" && c == RefusalBoundaryRelaxed)
    || (f == "escalation_requirement_reduced" && c == EscalationRequirementReduced)
    || (f == "auditability_reduced" && c == AuditabilityReduced)
    || (f == "replayability_reduced" && c == ReplayabilityReduced)
    || (f == "evaluator_behavior_changed" && c == EvaluationBehaviorChanged)
  }

  /** The signal that speaks for a category. */
  ghost predicate IsSignalOf(signal: string, highRisk: bool, c: Category) {
    || (signal == "admissibility_envelope_expansion" && highRisk && c == HighRiskAdmissibilityExpanded)
    || (signal == "admissibility_envelope_expansion" && !highRisk && c == AuthorityScopeExpansion)
    || (signal == "delegated_scope_widening" && c == AuthorityScopeExpansion)
    || (signal == "strategic_admissibility_drift" && highRisk && c == HighRiskAdmissibilityExpanded)
    || (signal == "strategic_admissibility_drift" && !highRisk && c == UnknownLegitimacyImpact)
  }

  /** The manifest type that speaks for a category. */
  ghost predicate IsTypeOf(changedType: string, c: Category) {
    || (changedType == "root_authority_manifest" && c == RootAuthorityChanged)
    || (changedType == "root_authority_manifest" && c == ConstitutionalTrustAnchorChanged)
    || (changedType == "evaluation_function_manifest" && c == EvaluationBehaviorChanged)
  }

  /** The change of scope that speaks for a category. */
  ghost predicate IsScopeOf(scope: Scope, c: Category) {
    || (scope.expanded && c == AuthorityScopeExpansion)
    || (scope.expansionType == "delegated_authority_expansion" && c == AuthorityScopeExpansion)
    || (scope.expansionType == "refusal_boundary_relaxation" && c == RefusalBoundaryRelaxed)
    || (scope.expansionType == "escalation_requirement_reduction" && c == EscalationRequirementReduced)
  }

  /** Some piece of the evidence speaks for a category. */
  ghost predicate SpeaksFor(i: Input, c: Category) {
    || (exists f :: f in i.flags && IsFlagOf(f, c))
    || IsTypeOf(i.changedType, c)
    || (i.highRisk && c == HighRiskAdmissibilityExpanded)
    || (i.monitor.Some? && i.monitor.value.scope.Some? && IsScopeOf(i.monitor.value.scope.value, c))
    || (i.monitor.Some? && exists x :: x in i.monitor.value.signals && IsSignalOf(x, i.highRisk, c))
  }

  /** There is an impact: a flag, a manifest of the two grave types, or a monitor that reports one. */
  ghost predicate HasImpact(i: Input) {
    || i.flags != []
    || i.changedType == "root_authority_manifest" || i.changedType == "evaluation_function_manifest"
    || ScopeExpanded(i)
    || (i.monitor.Some?
        && (|| i.monitor.value.status in {"suspicious", "drift_detected", "strategically_shaped",
                                          "non_deterministically_governed"}
            || (i.monitor.value.action.Some? && i.monitor.value.action.value != "none")))
  }

  lemma {:induction false} FromSignalsMembers(signals: seq<string>, highRisk: bool)
    ensures forall c :: c in FromSignals(signals, highRisk) <==>
        exists x :: x in signals && c in FromSignal(x, highRisk)
  {
    hide FromSignal;
    if signals != [] {
      var before, last := signals[..|signals| - 1], signals[|signals| - 1];
      assert signals == before + [last];
      FromSignalsMembers(before, highRisk);
    }
  }

  lemma FlagNamesDiffer()
    ensures "authority_scope_expanded"[0] == 'a' && "trusted_authority_source_changed"[0] == 't'
    ensures "policy_source_changed"[0] == 'p' && "human_oversight_weakened"[0] == 'h'
    ensures "refusal_boundary_relaxed"[0] == 'r' && "escalation_requirement_reduced"[0] == 'e'
    ensures "auditability_reduced"[0] == 'a' && "replayability_reduced"[0] == 'r'
    ensures "evaluator_behavior_changed"[0] == 'e'
  {
  }

  lemma FlagIsOf(f: string, c: Category)
    ensures c in FromFlag(f) <==> IsFlagOf(f, c)
  {
    FlagNamesDiffer();
  }

  lemma FlagsSpeak(flags: seq<string>, c: Category)
    ensures c in FromFlags(flags) <==> exists f :: f in flags && IsFlagOf(f, c)
  {
    hide FromFlags, FromFlag, IsFlagOf;
    FromFlagsMembers(flags);
    forall f ensures c in FromFlag(f) <==> IsFlagOf(f, c) { FlagIsOf(f, c); }
  }

  lemma SignalIsOf(signal: string, highRisk: bool, c: Category)
    ensures c in FromSignal(signal, highRisk) <==> IsSignalOf(signal, highRisk, c)
  {
    assert "strategic_admissibility_drift"[0] == 's' && "admissibility_envelope_expansion"[0] == 'a'
        && "delegated_scope_widening"[0] == 'd';
  }

  lemma SignalsSpeak(signals: seq<string>, highRisk: bool, c: Category)
    ensures c in FromSignals(signals, highRisk) <==> exists x :: x in signals && IsSignalOf(x, highRisk, c)
  {
    hide FromSignals, FromSignal, IsSignalOf;
    FromSignalsMembers(signals, highRisk);
    forall x ensures c in FromSignal(x, highRisk) <==> IsSignalOf(x, highRisk, c) { SignalIsOf(x, highRisk, c); }
  }

  lemma TypeIsOf(changedType: string, c: Category)
    ensures c in FromType(changedType) <==> IsTypeOf(changedType, c)
  {
    assert "root_authority_manifest"[0] == 'r' && "evaluation_function_manifest"[0] == 'e';
  }

  lemma ScopeIsOf(scope: Scope, c: Category)
    ensures c in FromScope(scope) <==> IsScopeOf(scope, c)
  {
  }

  lemma MonitorSpeaks(i: Input, c: Category)
    ensures c in FromMonitor(i) <==>
            && i.monitor.Some?
            && (|| (i.monitor.value.scope.Some? && IsScopeOf(i.monitor.value.scope.value, c))
                || exists x :: x in i.monitor.value.signals && IsSignalOf(x, i.highRisk, c))
  {
    hide FromScope, FromSignals, IsScopeOf, IsSignalOf;
    if i.monitor.Some? {
      SignalsSpeak(i.monitor.value.signals, i.highRisk, c);
      if i.monitor.value.scope.Some? { ScopeIsOf(i.monitor.value.scope.value, c); }
    }
  }

  lemma CollectedSpeaks(i: Input, c: Category)
    ensures c in Collected(i) <==> SpeaksFor(i, c)
  {
    hide FromFlags, FromType, FromMonitor, IsFlagOf, IsTypeOf, IsScopeOf, IsSignalOf;
    FlagsSpeak(i.flags, c);
    TypeIsOf(i.changedType, c);
    MonitorSpeaks(i, c);
  }

  lemma ImpactIff(i: Input)
    ensures ImpactDetected(i) <==> HasImpact(i)
  {
  }

  /** Which categories a review has: every known one that some evidence speaks for, and the unknown one if nothing
      speaks for any, or if strategic drift does and there is no impact. */
  lemma CategoriesMeaning(i: Input, c: Category)
    ensures c != UnknownLegitimacyImpact ==> (c in Categories(i) <==> SpeaksFor(i, c))
    ensures UnknownLegitimacyImpact in Categories(i) <==>
            || (forall d :: !SpeaksFor(i, d))
            || (SpeaksFor(i, UnknownLegitimacyImpact) && !HasImpact(i))
  {
    hide Collected, SpeaksFor, HasImpact, ImpactDetected;
    ImpactIff(i);
    forall d ensures d in Collected(i) <==> SpeaksFor(i, d) { CollectedSpeaks(i, d); }
    if Collected(i) != {} {
      var d :| d in Collected(i);
      assert SpeaksFor(i, d);
    }
  }

  /** Strategic drift speaks for the unknown category, and nothing for any other. */
  ghost predicate OnlyStrategicDrift(i: Input) {
    SpeaksFor(i, UnknownLegitimacyImpact) && forall c :: SpeaksFor(i, c) ==> c == UnknownLegitimacyImpact
  }

  lemma CollectedIsUnknownIff(i: Input)
    ensures Collected(i) == {UnknownLegitimacyImpact} <==> OnlyStrategicDrift(i)
  {
    hide Collected, SpeaksFor;
    forall c ensures c in Collected(i) <==> SpeaksFor(i, c) { CollectedSpeaks(i, c); }
  }

  lemma NoFlagIsUnknown(flags: seq<string>)
    ensures !exists f :: f in flags && IsFlagOf(f, UnknownLegitimacyImpact)
  {
  }

  lemma OnlyDriftHas(i: Input)
    requires OnlyStrategicDrift(i)
    ensures i.monitor.Some? && !ScopeExpanded(i)
    ensures i.changedType != "root_authority_manifest" && i.changedType != "evaluation_function_manifest"
  {
    hide IsFlagOf;
    assert !SpeaksFor(i, AuthorityScopeExpansion) && !SpeaksFor(i, RootAuthorityChanged)
        && !SpeaksFor(i, EvaluationBehaviorChanged);
    assert i.monitor.Some? by {
      if i.monitor.None? { NoFlagIsUnknown(i.flags); }
    }
  }

  /** The categories of the generated review: the list, with a fallback for an empty one. */
  function Reviewed(i: Input): seq<Category> {
    if !ImpactDetected(i) && Ordered(Categories(i)) == [] then [UnknownLegitimacyImpact] else Ordered(Categories(i))
  }

  /** The list is empty exactly if nothing but strategic drift speaks for a category, and yet there is an impact: a
      flag no category knows, a suspicious status, or a proposed action.  The fallback is for reviews without
      impact, so it never applies: the review has the empty list, which the review schema does not allow. */
  lemma EmptyIffOnlyUnknown(i: Input)
    ensures Ordered(Categories(i)) == [] <==>
            && OnlyStrategicDrift(i)
            && (|| i.flags != []
                || i.monitor.value.status in {"suspicious", "drift_detected", "strategically_shaped",
                                              "non_deterministically_governed"}
                || (i.monitor.value.action.Some? && i.monitor.value.action.value != "none"))
    ensures Reviewed(i) == Ordered(Categories(i))
  {
    hide Collected, Ordered, OnlyStrategicDrift, ImpactDetected;
    OrderedListsEachOnce(Categories(i));
    CollectedIsUnknownIff(i);
    ImpactIff(i);
    if OnlyStrategicDrift(i) { OnlyDriftHas(i); }
    assert Ordered(Categories(i)) == [] <==> Collected(i) == {UnknownLegitimacyImpact} && ImpactDetected(i);
  }

  /** What the input schemas demand of the fields the review reads. */
  predicate SchemaValid(i: Input) {
    && i.changedType in {"root_authority_manifest", "evaluation_function_manifest", "other_governance_manifest"}
    && "" !in i.flags
    && (i.monitor.Some? ==> MonitorValid(i.monitor.value))
  }

  predicate MonitorValid(m: Monitor) {
    && m.scope.Some? && m.scope.value.expansionType in {
         "none", "delegated_authority_expansion", "threshold_expansion", "policy_scope_expansion",
         "refusal_boundary_relaxation", "escalation_requirement_reduction", "contextual_scope_expansion", "unknown"}
    && m.status in {
         "stable", "watch", "suspicious", "drift_detected", "strategically_shaped", "non_deterministically_governed"}
    && m.action.Some? && m.action.value in {
         "none", "review", "requalify_trajectory", "reconcile_authority_scope", "escalate", "refuse",
         "mark_strategic_admissibility_drift", "mark_non_deterministically_governed"}
    && m.signals != []
    && forall k :: 0 <= k < |m.signals| ==> m.signals[k] in {
         "admissibility_envelope_expansion", "delegated_scope_widening", "permissive_requalification_trend",
         "low_risk_event_accumulation", "continuity_as_authorization_risk", "strategic_admissibility_drift",
         "governance_exhaustion_signal", "unexplained_trajectory_shift"}
  }

  const DRIFT_ONLY := Input("other_governance_manifest", [], false,
    Some(Monitor(Some(Scope(false, "none")), "suspicious", Some("review"), ["strategic_admissibility_drift"])))

  /** It happens on input that passes validation, and then output validation refuses the review. */
  lemma EmptyListExample()
    ensures SchemaValid(DRIFT_ONLY) && Reviewed(DRIFT_ONLY) == []
  {
    hide *;
    DriftOnlyIsValid();
    DriftOnlySpeaks();
    EmptyIffOnlyUnknown(DRIFT_ONLY);
  }

  lemma DriftOnlyIsValid()
    ensures SchemaValid(DRIFT_ONLY)
    ensures DRIFT_ONLY.monitor.Some? && DRIFT_ONLY.monitor.value.status == "suspicious"
  {
  }

  lemma DriftOnlySpeaks()
    ensures OnlyStrategicDrift(DRIFT_ONLY)
  {
    var i := DRIFT_ONLY;
    var scope, signal := i.monitor.value.scope.value, i.monitor.value.signals[0];
    assert scope.expansionType[0] == 'n' && i.changedType[0] == 'o' && signal[0] == 's';
    assert "admissibility_envelope_expansion"[0] == 'a' && "delegated_scope_widening"[0] == 'd';
    assert IsSignalOf(signal, false, UnknownLegitimacyImpact);
    forall c | SpeaksFor(i, c) ensures c == UnknownLegitimacyImpact {
      assert !IsTypeOf(i.changedType, c) && !IsScopeOf(scope, c);
      assert exists x :: x in i.monitor.value.signals && IsSignalOf(x, i.highRisk, c);
    }
  }
}
