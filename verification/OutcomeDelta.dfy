/** Comparing two evaluation receipts: `scripts/demo/generate_outcome_delta_attribution.py`. */
module OutcomeDelta {
  import opened Json
  import opened Lists
  import opened Orders
  import opened Text

  type Receipt = Dict

  datatype CauseType =
    | EvaluatorVersionChanged
    | PolicyIdentityChanged
    | RuleVersionChanged
    | AuthorityStateChanged
    | QualifierFreshnessChanged
    | ConsequenceClassChanged
    | MaterialContextChanged
    | AuthorizedDeterminerChanged
    | UnauthorizedDeterminerInfluence
    | UnexplainedEvaluationDrift
    | GovernedStateChanged
    // never produced here, but known to the drift detector
    | ThresholdStateChanged
    | RefusalBoundaryChanged
    | EscalationResolverChanged
    | OtherCause(name: string)

  datatype Severity = Info | Medium | High

  function SeverityOf(kind: CauseType): Severity {
    match kind
    case AuthorityStateChanged => High
    case ConsequenceClassChanged => High
    case UnauthorizedDeterminerInfluence => High
    case UnexplainedEvaluationDrift => High
    case GovernedStateChanged => Info
    case _ => Medium
  }

  /** A delta cause with the two values it refers to. */
  datatype Cause = Cause(kind: CauseType, severity: Severity, prior: Json, current: Json)

  function MakeCause(kind: CauseType, prior: Json, current: Json): Cause {
    Cause(kind, SeverityOf(kind), prior, current)
  }

  datatype Outcome<+T> = Ok(value: T) | AttributeError

  const POLICY_FIELDS: seq<string> := ["policy_id", "policy_version", "policy_source_ref"]
  const QUALIFIER_FIELDS: seq<string> := ["freshness_state", "qualifier_hash"]
  const CONSEQUENCE_FIELDS: seq<string> := ["class_id", "class_label", "classifier_id", "classifier_version"]
  const CONTEXT_FIELDS: seq<string> := ["context_hash", "context_freshness_state", "stale_context_allowed"]

  // ---------------------------------------------------------------- projections of a receipt

  /** `receipt.get(key, {})`, when it can be asked for fields. */
  predicate HasSection(r: Receipt, key: string) { GetOr(r, key, Obj(map[])).Obj? }

  function Section(r: Receipt, key: string): Dict
    requires HasSection(r, key)
  {
    GetOr(r, key, Obj(map[])).fields
  }

  /** The receipts that can be compared without an attribute error. */
  predicate Comparable(r: Receipt) {
    HasSection(r, "policy_identity") && HasSection(r, "consequence_class") && HasSection(r, "material_context")
  }

  function Policy(r: Receipt): Json
    requires Comparable(r)
  {
    Obj(Project(Section(r, "policy_identity"), POLICY_FIELDS))
  }

  function Consequence(r: Receipt): Json
    requires Comparable(r)
  {
    Obj(Project(Section(r, "consequence_class"), CONSEQUENCE_FIELDS))
  }

  function Context(r: Receipt): Json
    requires Comparable(r)
  {
    Obj(Project(Section(r, "material_context"), CONTEXT_FIELDS))
  }

  /** The entries of a list-valued field, or none. */
  function Entries(r: Receipt, key: string): seq<Json> {
    var j := GetOr(r, key, Arr([]));
    if j.Arr? then j.items else []
  }

  predicate IsNamed(qualifier: Json) {
    qualifier.Obj? && Get(qualifier.fields, "qualifier_name").Str? && Get(qualifier.fields, "qualifier_name").text != ""
  }

  function NameOf(qualifier: Json): string
    requires IsNamed(qualifier)
  {
    Get(qualifier.fields, "qualifier_name").text
  }

  function IndexByName(qualifiers: seq<Json>): map<string, Dict> {
    if qualifiers == [] then map[]
    else
      var before := IndexByName(qualifiers[..|qualifiers| - 1]);
      var last := qualifiers[|qualifiers| - 1];
      if IsNamed(last) then before[NameOf(last) := last.fields] else before
  }

  /** `_qualifier_map`. */
  method QualifierMap(r: Receipt) returns (result: map<string, Dict>)
    ensures result == IndexByName(Entries(r, "qualifier_state"))
  {
    var qualifiers := Entries(r, "qualifier_state");
    result := map[];
    var k := 0;
    while k < |qualifiers|
      invariant 0 <= k <= |qualifiers|
      invariant result == IndexByName(qualifiers[..k])
    {
      assert qualifiers[..k + 1][..k] == qualifiers[..k];
      if IsNamed(qualifiers[k]) { result := result[NameOf(qualifiers[k]) := qualifiers[k].fields]; }
      k := k + 1;
    }
    assert qualifiers[..k] == qualifiers;
  }

  /** The last qualifier of a name wins, and only well-formed ones are indexed. */
  lemma {:induction false} LastQualifierWins(qualifiers: seq<Json>, name: string)
    ensures name in IndexByName(qualifiers) <==>
              exists k :: 0 <= k < |qualifiers| && IsNamed(qualifiers[k]) && NameOf(qualifiers[k]) == name
    ensures name in IndexByName(qualifiers) ==>
              exists k :: 0 <= k < |qualifiers| && IsNamed(qualifiers[k]) && NameOf(qualifiers[k]) == name
                       && IndexByName(qualifiers)[name] == qualifiers[k].fields
                       && forall m :: k < m < |qualifiers| && IsNamed(qualifiers[m]) ==> NameOf(qualifiers[m]) != name
  {
    hide NameOf;
    if qualifiers != [] {
      var before := qualifiers[..|qualifiers| - 1];
      var n := |qualifiers| - 1;
      LastQualifierWins(before, name);
      if IsNamed(qualifiers[n]) && NameOf(qualifiers[n]) == name {
        assert IndexByName(qualifiers)[name] == qualifiers[n].fields;
      } else if name in IndexByName(before) {
        var k :| 0 <= k < |before| && IsNamed(before[k]) && NameOf(before[k]) == name
              && IndexByName(before)[name] == before[k].fields
              && forall m :: k < m < |before| && IsNamed(before[m]) ==> NameOf(before[m]) != name;
        assert qualifiers[k] == before[k];
        forall m | k < m < |qualifiers| && IsNamed(qualifiers[m]) ensures NameOf(qualifiers[m]) != name {
          if m < n { assert qualifiers[m] == before[m]; }
        }
      }
      assert forall k :: 0 <= k < n ==> qualifiers[k] == before[k];
    }
  }

  function Qualifiers(r: Receipt): map<string, Dict> { IndexByName(Entries(r, "qualifier_state")) }

  /** What is compared of the qualifier of a name, absent ones counting as empty. */
  function QualifierState(index: map<string, Dict>, name: string): Dict {
    Project(if name in index then index[name] else map[], QUALIFIER_FIELDS)
  }

  function NamedState(index: map<string, Dict>, name: string): Json {
    Obj(map["qualifier_name" := Str(name)] + QualifierState(index, name))
  }

  /** The pairs behind `_determiner_identity_set`. */
  function Identities(determiners: seq<Json>): set<(string, string)> {
    if determiners == [] then {}
    else
      var last := determiners[|determiners| - 1];
      Identities(determiners[..|determiners| - 1]) +
      if last.Obj? && Get(last.fields, "determiner_id").Str? && Get(last.fields, "determiner_type").Str?
      then {(Get(last.fields, "determiner_id").text, Get(last.fields, "determiner_type").text)} else {}
  }

  function PairJson(p: (string, string)): Json { Arr([Str(p.0), Str(p.1)]) }

  /** `_determiner_identity_set`: the pairs in sorted order. */
  function DeterminerIdentitySet(r: Receipt): Json {
    PairOrder();
    Arr(Map(PairJson, SortSet(PairLeq, Identities(Entries(r, "authorized_determiners_used")))))
  }

  lemma {:induction false} MapPairJsonInjective(s: seq<(string, string)>, t: seq<(string, string)>)
    requires Map(PairJson, s) == Map(PairJson, t)
    ensures s == t
  {
    if s != [] && t != [] {
      assert Map(PairJson, s)[0] == PairJson(s[0]) && Map(PairJson, t)[0] == PairJson(t[0]);
      assert PairJson(s[0]).items[0] == Str(s[0].0) && PairJson(t[0]).items[0] == Str(t[0].0);
      assert PairJson(s[0]).items[1] == Str(s[0].1) && PairJson(t[0]).items[1] == Str(t[0].1);
      assert Map(PairJson, s[1..]) == Map(PairJson, s)[1..];
      assert Map(PairJson, t[1..]) == Map(PairJson, t)[1..];
      MapPairJsonInjective(s[1..], t[1..]);
      assert s == [s[0]] + s[1..] && t == [t[0]] + t[1..];
    }
  }

  /** The sorted lists are equal exactly if the sets are: order and repetition of determiners do not matter. */
  lemma IdentitySetsCompareAsSets(a: Receipt, b: Receipt)
    ensures DeterminerIdentitySet(a) == DeterminerIdentitySet(b) <==>
            Identities(Entries(a, "authorized_determiners_used"))
                == Identities(Entries(b, "authorized_determiners_used"))
  {
    PairOrder();
    hide TotalOrder, PairLeq, Map, Identities;
    var s, t := Identities(Entries(a, "authorized_determiners_used")),
        Identities(Entries(b, "authorized_determiners_used"));
    if DeterminerIdentitySet(a) == DeterminerIdentitySet(b) {
      MapPairJsonInjective(SortSet(PairLeq, s), SortSet(PairLeq, t));
      assert forall p :: p in s <==> p in SortSet(PairLeq, s);
      assert forall p :: p in t <==> p in SortSet(PairLeq, t);
    }
  }

  const UNAUTHORIZED_MARKERS: set<string> := {
    "", "unknown", "unauthorized", "unauthorised", "explicitly_unauthorized", "explicitly_unauthorised"}

  predicate IsUnauthorizedScope(scope: string) {
    scope in UNAUTHORIZED_MARKERS || Contains(scope, "unauthorized") || Contains(scope, "unauthorised")
  }

  /** `normalize` is `str(...).strip().lower()`. */
  predicate IsUnauthorized(determiner: Json, normalize: Json -> string) {
    determiner.Obj? && IsUnauthorizedScope(normalize(GetOr(determiner.fields, "authority_scope", Str(""))))
  }

  predicate HasUnauthorized(r: Receipt, normalize: Json -> string) {
    exists k :: 0 <= k < |Entries(r, "authorized_determiners_used")| &&
                IsUnauthorized(Entries(r, "authorized_determiners_used")[k], normalize)
  }

  /** `_has_unauthorized_determiner`. */
  method HasUnauthorizedDeterminer(r: Receipt, normalize: Json -> string) returns (found: bool)
    ensures found <==> HasUnauthorized(r, normalize)
  {
    var determiners := Entries(r, "authorized_determiners_used");
    var k := 0;
    while k < |determiners|
      invariant 0 <= k <= |determiners|
      invariant forall m :: 0 <= m < k ==> !IsUnauthorized(determiners[m], normalize)
    {
      if determiners[k].Obj? {
        var scope := normalize(GetOr(determiners[k].fields, "authority_scope", Str("")));
        if scope in UNAUTHORIZED_MARKERS { return true; }
        if Contains(scope, "unauthorized") || Contains(scope, "unauthorised") { return true; }
      }
      k := k + 1;
    }
    return false;
  }

  /** Of the six markers only the empty and the unknown scope are not already caught by the substring tests. */
  lemma OnlyTwoMarkersMatter(scope: string)
    ensures IsUnauthorizedScope(scope) <==>
            scope == "" || scope == "unknown" || Occurs("unauthorized", scope) || Occurs("unauthorised", scope)
  {
    ContainsIffOccurs(scope, "unauthorized");
    ContainsIffOccurs(scope, "unauthorised");
    hide Contains, Occurs;
    if scope == "unauthorized" {
      EndsWith(scope, "", "unauthorized");
    } else if scope == "unauthorised" {
      EndsWith(scope, "", "unauthorised");
    } else if scope == "explicitly_unauthorized" {
      EndsWith(scope, "explicitly_", "unauthorized");
    } else if scope == "explicitly_unauthorised" {
      EndsWith(scope, "explicitly_", "unauthorised");
    }
  }

  lemma EndsWith(s: string, before: string, part: string)
    requires s == before + part
    ensures Contains(s, part)
  {
    ContainsSuffix(before, part);
  }

  lemma {:induction false} ContainsSuffix(before: string, part: string)
    ensures Contains(before + part, part)
  {
    if before == "" {
      assert before + part == part;
    } else {
      assert (before + part)[1..] == before[1..] + part;
      ContainsSuffix(before[1..], part);
    }
  }

  // ---------------------------------------------------------------- the comparison

  /** All that the comparison looks at in a receipt. */
  datatype View = View(evaluator: Json, policy: Json, ruleSet: Json, authority: Json, qualifiers: map<string, Dict>,
                       consequence: Json, context: Json, determiners: Json, unauthorized: bool, outcome: Json)

  function ViewOf(r: Receipt, normalize: Json -> string): View
    requires Comparable(r)
  {
    View(Get(r, "evaluator_version"), Policy(r), Get(r, "rule_set_version"),
         GetOr(r, "authority_evidence_refs", Arr([])), Qualifiers(r), Consequence(r), Context(r),
         DeterminerIdentitySet(r), HasUnauthorized(r, normalize), Get(r, "outcome"))
  }

  function Compared(kind: CauseType, prior: Json, current: Json): seq<Cause> {
    if prior != current then [MakeCause(kind, prior, current)] else []
  }

  function QualifierNames(prior: map<string, Dict>, current: map<string, Dict>): seq<string> {
    StringOrder();
    SortSet(StringLeq, prior.Keys + current.Keys)
  }

  function QualifierCause(prior: map<string, Dict>, current: map<string, Dict>): string -> Cause {
    (name: string) => MakeCause(QualifierFreshnessChanged, NamedState(prior, name), NamedState(current, name))
  }

  predicate StateDiffers(prior: map<string, Dict>, current: map<string, Dict>, name: string) {
    QualifierState(prior, name) != QualifierState(current, name)
  }

  function QualifierDiffers(prior: map<string, Dict>, current: map<string, Dict>): string -> bool {
    (name: string) => StateDiffers(prior, current, name)
  }

  function QualifierDiff(prior: map<string, Dict>, current: map<string, Dict>): string -> seq<Cause> {
    (name: string) => if StateDiffers(prior, current, name) then [QualifierCause(prior, current)(name)] else []
  }

  function QualifierDiffs(prior: map<string, Dict>, current: map<string, Dict>): seq<Cause> {
    FlatMap(QualifierDiff(prior, current), QualifierNames(prior, current))
  }

  function DiffsBeforeQualifiers(a: View, b: View): seq<Cause> {
    Compared(EvaluatorVersionChanged, a.evaluator, b.evaluator) +
    Compared(PolicyIdentityChanged, a.policy, b.policy) +
    Compared(RuleVersionChanged, a.ruleSet, b.ruleSet) +
    Compared(AuthorityStateChanged, a.authority, b.authority)
  }

  function DiffsAfterQualifiers(a: View, b: View): seq<Cause> {
    Compared(ConsequenceClassChanged, a.consequence, b.consequence) +
    Compared(MaterialContextChanged, a.context, b.context) +
    Compared(AuthorizedDeterminerChanged, a.determiners, b.determiners)
  }

  /** The differences between compared fields, in the order in which they are found. */
  function FieldDiffs(a: View, b: View): seq<Cause> {
    DiffsBeforeQualifiers(a, b) + QualifierDiffs(a.qualifiers, b.qualifiers) + DiffsAfterQualifiers(a, b)
  }

  const INFLUENCE := MakeCause(UnauthorizedDeterminerInfluence, Str("not_detected_in_prior_receipt"),
                               Str("unauthorized_or_unknown_authority_scope_in_current_receipt"))

  const NO_DELTA := MakeCause(GovernedStateChanged, Str("no_compared_delta_detected"),
      Str("no_compared_delta_detected"))

  /** Everything found, before the two causes that stand for "nothing found". */
  function Found(a: View, b: View): seq<Cause> { FieldDiffs(a, b) + if b.unauthorized then [INFLUENCE] else [] }

  function Causes(a: View, b: View): seq<Cause> {
    if Found(a, b) != [] then Found(a, b)
    else if a.outcome != b.outcome then [MakeCause(UnexplainedEvaluationDrift, a.outcome, b.outcome)]
    else [NO_DELTA]
  }

  /** `_compare_field`: appends to the list it is given. */
  method CompareField(causes: seq<Cause>, prior: Json, current: Json, kind: CauseType) returns (longer: seq<Cause>)
    ensures longer == causes + Compared(kind, prior, current)
  {
    longer := causes;
    if prior != current { longer := longer + [MakeCause(kind, prior, current)]; }
  }

  /** `compare_receipts`. */
  method CompareReceipts(prior: Receipt, current: Receipt, normalize: Json -> string)
      returns (result: Outcome<seq<Cause>>)
    ensures result.Ok? <==> Comparable(prior) && Comparable(current)
    ensures result.Ok? ==> result.value == Causes(ViewOf(prior, normalize), ViewOf(current, normalize))
  {
    hide HasUnauthorized, QualifierDiffs, Compared, Context, Consequence, Policy, DeterminerIdentitySet, IndexByName,
         Entries;
    if !Comparable(prior) || !Comparable(current) { return AttributeError; }
    var causes := CompareField([], Get(prior, "evaluator_version"), Get(current, "evaluator_version"),
        EvaluatorVersionChanged);
    causes := CompareField(causes, Policy(prior), Policy(current), PolicyIdentityChanged);
    causes := CompareField(causes, Get(prior, "rule_set_version"), Get(current, "rule_set_version"),
        RuleVersionChanged);
    causes := CompareField(causes, GetOr(prior, "authority_evidence_refs", Arr([])),
                           GetOr(current, "authority_evidence_refs", Arr([])), AuthorityStateChanged);
    ghost var a, b := ViewOf(prior, normalize), ViewOf(current, normalize);
    assert causes == DiffsBeforeQualifiers(a, b);
    var priorQualifiers := QualifierMap(prior);
    var currentQualifiers := QualifierMap(current);
    causes := CompareQualifiers(causes, priorQualifiers, currentQualifiers);
    causes := CompareField(causes, Consequence(prior), Consequence(current), ConsequenceClassChanged);
    causes := CompareField(causes, Context(prior), Context(current), MaterialContextChanged);
    causes := CompareField(causes, DeterminerIdentitySet(prior), DeterminerIdentitySet(current),
        AuthorizedDeterminerChanged);
    assert causes == FieldDiffs(a, b);
    var unauthorized := HasUnauthorizedDeterminer(current, normalize);
    causes := Conclude(causes, unauthorized, Get(prior, "outcome"), Get(current, "outcome"), a, b);
    return Ok(causes);
  }

  method Conclude(diffs: seq<Cause>, unauthorized: bool, prior: Json, current: Json, ghost a: View, ghost b: View)
    returns (causes: seq<Cause>)
    requires diffs == FieldDiffs(a, b) && unauthorized == b.unauthorized && prior == a.outcome && current == b.outcome
    ensures causes == Causes(a, b)
  {
    hide FieldDiffs;
    causes := diffs;
    if unauthorized { causes := causes + [INFLUENCE]; }
    var outcomeChanged := prior != current;
    if outcomeChanged && causes == [] {
      causes := causes + [MakeCause(UnexplainedEvaluationDrift, prior, current)];
    }
    if !outcomeChanged && causes == [] {
      causes := causes + [NO_DELTA];
    }
  }

  method CompareQualifiers(causes: seq<Cause>, prior: map<string, Dict>, current: map<string, Dict>)
      returns (longer: seq<Cause>)
    ensures longer == causes + QualifierDiffs(prior, current)
  {
    hide FlatMap, QualifierState, NamedState, QualifierNames;
    longer := causes;
    var names := QualifierNames(prior, current);
    NoNames(QualifierDiff(prior, current));
    var k := 0;
    while k < |names|
      invariant 0 <= k <= |names|
      invariant longer == causes + FlatMap(QualifierDiff(prior, current), names[..k])
    {
      FlatMapSnoc(QualifierDiff(prior, current), names, k);
      QualifierDiffAt(prior, current, names[k]);
      if QualifierState(prior, names[k]) != QualifierState(current, names[k]) {
        longer := longer + [MakeCause(QualifierFreshnessChanged, NamedState(prior, names[k]),
            NamedState(current, names[k]))];
      }
      k := k + 1;
    }
    assert names[..k] == names;
  }

  lemma QualifierDiffAt(prior: map<string, Dict>, current: map<string, Dict>, name: string)
    ensures QualifierDiff(prior, current)(name) ==
            if QualifierState(prior, name) != QualifierState(current, name)
            then [MakeCause(QualifierFreshnessChanged, NamedState(prior, name), NamedState(current, name))] else []
  {
    var cause := MakeCause(QualifierFreshnessChanged, NamedState(prior, name), NamedState(current, name));
    assert QualifierCause(prior, current)(name) == cause;
    if StateDiffers(prior, current, name) {
      assert QualifierDiff(prior, current)(name) == [QualifierCause(prior, current)(name)];
    } else {
      assert QualifierDiff(prior, current)(name) == [];
    }
  }

  lemma NoNames(f: string -> seq<Cause>)
    ensures FlatMap(f, []) == []
  {
  }

  // ---------------------------------------------------------------- what the causes mean

  /** Some qualifier differs in freshness or hash. */
  ghost predicate QualifiersDiffer(a: View, b: View) {
    exists name :: QualifierState(a.qualifiers, name) != QualifierState(b.qualifiers, name)
  }

  /** Every compared projection of the two receipts is the same. */
  ghost predicate ProjectionsAgree(a: View, b: View) {
    && a.evaluator == b.evaluator
    && a.policy == b.policy
    && a.ruleSet == b.ruleSet
    && a.authority == b.authority
    && !QualifiersDiffer(a, b)
    && a.consequence == b.consequence
    && a.context == b.context
    && a.determiners == b.determiners
  }

  predicate HasCause(causes: seq<Cause>, kind: CauseType) { exists k :: 0 <= k < |causes| && causes[k].kind == kind }

  /** The names whose qualifier causes are reported. */
  function ReportedNames(prior: map<string, Dict>, current: map<string, Dict>): seq<string> {
    Filter(QualifierDiffers(prior, current), QualifierNames(prior, current))
  }

  lemma {:induction false} DiffsOfNames(prior: map<string, Dict>, current: map<string, Dict>, names: seq<string>)
    ensures FlatMap(QualifierDiff(prior, current), names) ==
            Map(QualifierCause(prior, current), Filter(QualifierDiffers(prior, current), names))
  {
    hide StateDiffers, QualifierCause;
    if names != [] { DiffsOfNames(prior, current, names[1..]); }
  }

  predicate StrictlyBelow(x: string, y: string) { StringLeq(x, y) && x != y }

  /** Qualifier causes name exactly the qualifiers whose last entries differ in freshness or hash, in ascending
      order of their names, each once. */
  lemma QualifierCausesAreDifferences(prior: map<string, Dict>, current: map<string, Dict>)
    ensures Pairwise(StrictlyBelow, ReportedNames(prior, current))
    ensures forall name :: name in ReportedNames(prior, current) <==>
                           QualifierState(prior, name) != QualifierState(current, name)
    ensures QualifierDiffs(prior, current) == Map(QualifierCause(prior, current), ReportedNames(prior, current))
  {
    NamesEnumerate(prior, current);
    hide QualifierNames, QualifierCause, StringLeq;
    var names := QualifierNames(prior, current);
    FilterKeeps(QualifierDiffers(prior, current), names);
    FilterKeepsPairwise(QualifierDiffers(prior, current), StrictlyBelow, names);
    DiffsOfNames(prior, current, names);
    forall name | name !in names ensures QualifierState(prior, name) == QualifierState(current, name) {
      assert name !in prior && name !in current;
    }
  }

  lemma NamesEnumerate(prior: map<string, Dict>, current: map<string, Dict>)
    ensures Pairwise(StrictlyBelow, QualifierNames(prior, current))
    ensures forall name :: name in QualifierNames(prior, current) <==> name in prior || name in current
  {
    hide StringLeq;
    var names := QualifierNames(prior, current);
    assert forall name :: name in names <==> name in prior.Keys + current.Keys;
  }

  // ---------------------------------------------------------------- which causes occur

  lemma HasCauseAppend(s: seq<Cause>, t: seq<Cause>, kind: CauseType)
    ensures HasCause(s + t, kind) <==> HasCause(s, kind) || HasCause(t, kind)
  {
    if HasCause(s, kind) {
      var k :| 0 <= k < |s| && s[k].kind == kind;
      assert (s + t)[k] == s[k];
    }
    if HasCause(t, kind) {
      var k :| 0 <= k < |t| && t[k].kind == kind;
      assert (s + t)[|s| + k] == t[k];
    }
  }

  lemma ComparedHasCause(kind: CauseType, prior: Json, current: Json, asked: CauseType)
    ensures HasCause(Compared(kind, prior, current), asked) <==> asked == kind && prior != current
  {
    if prior != current { assert Compared(kind, prior, current)[0].kind == kind; }
  }

  lemma {:induction false} MappedHasCause(f: string -> Cause, kind: CauseType, names: seq<string>, asked: CauseType)
    requires forall name :: f(name).kind == kind
    ensures HasCause(Map(f, names), asked) <==> asked == kind && names != []
  {
    if names != [] {
      MappedHasCause(f, kind, names[1..], asked);
      HasCauseAppend([f(names[0])], Map(f, names[1..]), asked);
      assert [f(names[0])][0].kind == kind;
    }
  }

  lemma QualifierDiffsHaveCause(a: View, b: View, asked: CauseType)
    ensures HasCause(QualifierDiffs(a.qualifiers, b.qualifiers), asked) <==>
        asked == QualifierFreshnessChanged && QualifiersDiffer(a, b)
  {
    QualifierCausesAreDifferences(a.qualifiers, b.qualifiers);
    var names := ReportedNames(a.qualifiers, b.qualifiers);
    hide QualifierDiffs, ReportedNames, QualifierState, NamedState, Pairwise, HasCause;
    MappedHasCause(QualifierCause(a.qualifiers, b.qualifiers), QualifierFreshnessChanged, names, asked);
    if names != [] {
      assert names[0] in names;
    }
  }

  /** Exactly when each kind occurs among the field differences. */
  ghost predicate DiffReason(a: View, b: View, kind: CauseType) {
    match kind
    case EvaluatorVersionChanged => a.evaluator != b.evaluator
    case PolicyIdentityChanged => a.policy != b.policy
    case RuleVersionChanged => a.ruleSet != b.ruleSet
    case AuthorityStateChanged => a.authority != b.authority
    case QualifierFreshnessChanged => QualifiersDiffer(a, b)
    case ConsequenceClassChanged => a.consequence != b.consequence
    case MaterialContextChanged => a.context != b.context
    case AuthorizedDeterminerChanged => a.determiners != b.determiners
    case _ => false
  }

  lemma FieldDiffsHaveCause(a: View, b: View, kind: CauseType)
    ensures HasCause(FieldDiffs(a, b), kind) <==> DiffReason(a, b, kind)
  {
    hide HasCause, Compared, QualifierDiffs, QualifiersDiffer;
    var d1 := Compared(EvaluatorVersionChanged, a.evaluator, b.evaluator);
    var d2 := Compared(PolicyIdentityChanged, a.policy, b.policy);
    var d3 := Compared(RuleVersionChanged, a.ruleSet, b.ruleSet);
    var d4 := Compared(AuthorityStateChanged, a.authority, b.authority);
    ComparedHasCause(EvaluatorVersionChanged, a.evaluator, b.evaluator, kind);
    ComparedHasCause(PolicyIdentityChanged, a.policy, b.policy, kind);
    ComparedHasCause(RuleVersionChanged, a.ruleSet, b.ruleSet, kind);
    ComparedHasCause(AuthorityStateChanged, a.authority, b.authority, kind);
    HasCauseAppend(d1, d2, kind);
    HasCauseAppend(d1 + d2, d3, kind);
    HasCauseAppend(d1 + d2 + d3, d4, kind);
    QualifierDiffsHaveCause(a, b, kind);
    var d6 := Compared(ConsequenceClassChanged, a.consequence, b.consequence);
    var d7 := Compared(MaterialContextChanged, a.context, b.context);
    var d8 := Compared(AuthorizedDeterminerChanged, a.determiners, b.determiners);
    ComparedHasCause(ConsequenceClassChanged, a.consequence, b.consequence, kind);
    ComparedHasCause(MaterialContextChanged, a.context, b.context, kind);
    ComparedHasCause(AuthorizedDeterminerChanged, a.determiners, b.determiners, kind);
    HasCauseAppend(d6, d7, kind);
    HasCauseAppend(d6 + d7, d8, kind);
    HasCauseAppend(DiffsBeforeQualifiers(a, b), QualifierDiffs(a.qualifiers, b.qualifiers), kind);
    HasCauseAppend(DiffsBeforeQualifiers(a, b) + QualifierDiffs(a.qualifiers, b.qualifiers),
                   DiffsAfterQualifiers(a, b), kind);
  }

  lemma NoDiffsIffAgree(a: View, b: View)
    ensures FieldDiffs(a, b) == [] <==> ProjectionsAgree(a, b)
  {
    hide FieldDiffs, QualifiersDiffer;
    var diffs := FieldDiffs(a, b);
    if diffs != [] {
      FieldDiffsHaveCause(a, b, diffs[0].kind);
      assert HasCause(diffs, diffs[0].kind);
    } else {
      FieldDiffsHaveCause(a, b, EvaluatorVersionChanged);
      FieldDiffsHaveCause(a, b, PolicyIdentityChanged);
      FieldDiffsHaveCause(a, b, RuleVersionChanged);
      FieldDiffsHaveCause(a, b, AuthorityStateChanged);
      FieldDiffsHaveCause(a, b, QualifierFreshnessChanged);
      FieldDiffsHaveCause(a, b, ConsequenceClassChanged);
      FieldDiffsHaveCause(a, b, MaterialContextChanged);
      FieldDiffsHaveCause(a, b, AuthorizedDeterminerChanged);
    }
  }

  /** Exactly when each kind occurs in the result of the comparison. */
  ghost predicate CauseReason(a: View, b: View, kind: CauseType) {
    match kind
    case UnauthorizedDeterminerInfluence => b.unauthorized
    case UnexplainedEvaluationDrift => a.outcome != b.outcome && ProjectionsAgree(a, b) && !b.unauthorized
    case GovernedStateChanged => a.outcome == b.outcome && ProjectionsAgree(a, b) && !b.unauthorized
    case _ => DiffReason(a, b, kind)
  }

  lemma CausesHaveCause(a: View, b: View, kind: CauseType)
    ensures HasCause(Causes(a, b), kind) <==> CauseReason(a, b, kind)
  {
    FieldDiffsHaveCause(a, b, kind);
    NoDiffsIffAgree(a, b);
    AgreeMeansNoReason(a, b, kind);
    hide FieldDiffs, ProjectionsAgree, HasCause, QualifiersDiffer, DiffReason;
    if b.unauthorized {
      HasCauseAppend(FieldDiffs(a, b), [INFLUENCE], kind);
      SingleHasCause(INFLUENCE, kind);
    } else {
      assert Found(a, b) == FieldDiffs(a, b);
      SingleHasCause(MakeCause(UnexplainedEvaluationDrift, a.outcome, b.outcome), kind);
      SingleHasCause(NO_DELTA, kind);
    }
  }

  lemma AgreeMeansNoReason(a: View, b: View, kind: CauseType)
    ensures ProjectionsAgree(a, b) ==> !DiffReason(a, b, kind)
    ensures kind.UnauthorizedDeterminerInfluence? || kind.UnexplainedEvaluationDrift? || kind.GovernedStateChanged? ==>
        !DiffReason(a, b, kind)
  {
  }

  lemma SingleHasCause(c: Cause, kind: CauseType)
    ensures HasCause([c], kind) <==> c.kind == kind
  {
    assert [c][0] == c;
  }

  /** The list is never empty, and the two causes that stand for "nothing found" only occur alone. */
  lemma CausesShape(a: View, b: View)
    ensures Causes(a, b) != []
    ensures HasCause(Causes(a, b), UnexplainedEvaluationDrift) || HasCause(Causes(a, b), GovernedStateChanged) ==>
        |Causes(a, b)| == 1
  {
    CausesHaveCause(a, b, UnexplainedEvaluationDrift);
    CausesHaveCause(a, b, GovernedStateChanged);
    NoDiffsIffAgree(a, b);
    hide FieldDiffs, ProjectionsAgree, HasCause;
  }

  // ---------------------------------------------------------------- exchanging the receipts

  function Exchanged(c: Cause): Cause { Cause(c.kind, c.severity, c.current, c.prior) }

  lemma {:induction false} QualifierDiffsExchange(prior: map<string, Dict>, current: map<string, Dict>,
      names: seq<string>)
    ensures FlatMap(QualifierDiff(current, prior), names)
        == Map(Exchanged, FlatMap(QualifierDiff(prior, current), names))
  {
    hide QualifierState, NamedState;
    if names != [] {
      QualifierDiffsExchange(prior, current, names[1..]);
      QualifierDiffAt(prior, current, names[0]);
      QualifierDiffAt(current, prior, names[0]);
      MapOne(Exchanged, QualifierCause(prior, current)(names[0]));
      assert Map(Exchanged, QualifierDiff(prior, current)(names[0])) == QualifierDiff(current, prior)(names[0]);
      MapAppend(Exchanged, QualifierDiff(prior, current)(names[0]), FlatMap(QualifierDiff(prior, current), names[1..]));
    }
  }

  lemma ComparedExchange(kind: CauseType, prior: Json, current: Json)
    ensures Map(Exchanged, Compared(kind, prior, current)) == Compared(kind, current, prior)
  {
  }

  lemma BeforeQualifiersExchange(a: View, b: View)
    ensures DiffsBeforeQualifiers(b, a) == Map(Exchanged, DiffsBeforeQualifiers(a, b))
  {
    hide Compared, Map;
    var d1 := Compared(EvaluatorVersionChanged, a.evaluator, b.evaluator);
    var d2 := Compared(PolicyIdentityChanged, a.policy, b.policy);
    var d3 := Compared(RuleVersionChanged, a.ruleSet, b.ruleSet);
    var d4 := Compared(AuthorityStateChanged, a.authority, b.authority);
    MapAppend(Exchanged, d1, d2);
    MapAppend(Exchanged, d1 + d2, d3);
    MapAppend(Exchanged, d1 + d2 + d3, d4);
    ComparedExchange(EvaluatorVersionChanged, a.evaluator, b.evaluator);
    ComparedExchange(PolicyIdentityChanged, a.policy, b.policy);
    ComparedExchange(RuleVersionChanged, a.ruleSet, b.ruleSet);
    ComparedExchange(AuthorityStateChanged, a.authority, b.authority);
  }

  lemma AfterQualifiersExchange(a: View, b: View)
    ensures DiffsAfterQualifiers(b, a) == Map(Exchanged, DiffsAfterQualifiers(a, b))
  {
    hide Compared, Map;
    var d1 := Compared(ConsequenceClassChanged, a.consequence, b.consequence);
    var d2 := Compared(MaterialContextChanged, a.context, b.context);
    var d3 := Compared(AuthorizedDeterminerChanged, a.determiners, b.determiners);
    MapAppend(Exchanged, d1, d2);
    MapAppend(Exchanged, d1 + d2, d3);
    ComparedExchange(ConsequenceClassChanged, a.consequence, b.consequence);
    ComparedExchange(MaterialContextChanged, a.context, b.context);
    ComparedExchange(AuthorizedDeterminerChanged, a.determiners, b.determiners);
  }

  /** Exchanging the two receipts exchanges the values in every field difference and changes nothing else: the
      same kinds are found in the same order. */
  lemma FieldDiffsExchange(a: View, b: View)
    ensures FieldDiffs(b, a) == Map(Exchanged, FieldDiffs(a, b))
  {
    assert a.qualifiers.Keys + b.qualifiers.Keys == b.qualifiers.Keys + a.qualifiers.Keys;
    QualifierDiffsExchange(a.qualifiers, b.qualifiers, QualifierNames(a.qualifiers, b.qualifiers));
    assert QualifierDiffs(b.qualifiers, a.qualifiers) == Map(Exchanged, QualifierDiffs(a.qualifiers, b.qualifiers));
    BeforeQualifiersExchange(a, b);
    AfterQualifiersExchange(a, b);
    hide QualifierDiffs, DiffsBeforeQualifiers, DiffsAfterQualifiers, Map;
    MapAppend(Exchanged, DiffsBeforeQualifiers(a, b), QualifierDiffs(a.qualifiers, b.qualifiers));
    MapAppend(Exchanged, DiffsBeforeQualifiers(a, b) + QualifierDiffs(a.qualifiers, b.qualifiers),
                   DiffsAfterQualifiers(a, b));
  }

  // ---------------------------------------------------------------- the attribution

  datatype GovernanceAction = NoAction | Review | Escalate | MarkEvaluationDrift

  datatype Confidence = LowConfidence | MediumConfidence | HighConfidence

  datatype Attribution = Attribution(causes: seq<Cause>, outcomeChanged: bool, unresolvedPresent: bool,
                                     confidence: Confidence, action: GovernanceAction)

  function RecommendedAction(outcomeChanged: bool, causes: seq<Cause>): GovernanceAction {
    if HasCause(causes, UnauthorizedDeterminerInfluence) then Escalate
    else if HasCause(causes, UnexplainedEvaluationDrift) then MarkEvaluationDrift
    else if !outcomeChanged && causes != [] && (forall k :: 0 <= k < |causes| ==>
        causes[k].kind == GovernedStateChanged) then NoAction
    else Review
  }

  function AttributionConfidence(outcomeChanged: bool, causes: seq<Cause>): Confidence {
    if HasCause(causes, UnexplainedEvaluationDrift) then LowConfidence
    else if outcomeChanged && causes != [] then HighConfidence
    else MediumConfidence
  }

  /** `str(receipt.get("outcome", "undetermined"))`. */
  function OutcomeText(r: Receipt, render: Json -> string): string { render(GetOr(r, "outcome", Str("undetermined"))) }

  /** The fields of `generate_outcome_delta_attribution` that carry the result. */
  function Attribute(prior: Receipt, current: Receipt, normalize: Json -> string, render: Json -> string): Attribution
    requires Comparable(prior) && Comparable(current)
  {
    var causes := Causes(ViewOf(prior, normalize), ViewOf(current, normalize));
    var outcomeChanged := OutcomeText(prior, render) != OutcomeText(current, render);
    Attribution(causes, outcomeChanged, HasCause(causes, UnexplainedEvaluationDrift),
                AttributionConfidence(outcomeChanged, causes), RecommendedAction(outcomeChanged, causes))
  }
}
