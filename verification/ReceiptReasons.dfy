/** What a comparison of two evaluation receipts reports, in terms of nothing but the keys of the receipts. */
module ReceiptReasons {
  import opened Json
  import opened Lists
  import opened Orders
  import opened OutcomeDelta
  import opened Text

  // ---------------------------------------------------------------- reading a receipt

  /** What stands under a key, null if nothing does. */
  ghost function At(d: Dict, key: string): Json { if key in d then d[key] else Null }

  /** The object under a key, an absent one counting as empty. */
  ghost function SectionAt(r: Receipt, key: string): Dict {
    if key in r && r[key].Obj? then r[key].fields else map[]
  }

  /** The list under a key, anything else counting as empty. */
  ghost function ListAt(r: Receipt, key: string): seq<Json> { if key in r && r[key].Arr? then r[key].items else [] }

  /** The three sections are objects if they are present. */
  ghost predicate Readable(r: Receipt) {
    forall key | key in {"policy_identity", "consequence_class", "material_context"} :: key in r ==> r[key].Obj?
  }

  /** `j` is the object with just these keys, and with what `d` has under them. */
  ghost predicate Reads(j: Json, d: Dict, keys: set<string>) {
    j.Obj? && j.fields.Keys == keys && forall key :: key in keys ==> j.fields[key] == At(d, key)
  }

  ghost predicate DifferAt(d: Dict, e: Dict, keys: set<string>) {
    exists key :: key in keys && At(d, key) != At(e, key)
  }

  lemma ReadsDiffer(i: Json, j: Json, d: Dict, e: Dict, keys: set<string>)
    requires Reads(i, d, keys) && Reads(j, e, keys)
    ensures i != j <==> DifferAt(d, e, keys)
  {
    if !DifferAt(d, e, keys) { assert i.fields == j.fields; }
  }

  lemma ProjectReads(d: Dict, fields: seq<string>, keys: set<string>)
    requires forall key :: key in fields <==> key in keys
    ensures Reads(Obj(Project(d, fields)), d, keys)
  {
  }

  // ---------------------------------------------------------------- the policy, the consequence and the context

  lemma ComparableIffReadable(r: Receipt)
    ensures Comparable(r) <==> Readable(r)
    ensures Comparable(r) ==>
        && Section(r, "policy_identity") == SectionAt(r, "policy_identity")
        && Section(r, "consequence_class") == SectionAt(r, "consequence_class")
        && Section(r, "material_context") == SectionAt(r, "material_context")
  {
    if Readable(r) {
      assert "policy_identity" in r ==> r["policy_identity"].Obj?;
      assert "consequence_class" in r ==> r["consequence_class"].Obj?;
      assert "material_context" in r ==> r["material_context"].Obj?;
    }
  }

  lemma SectionsRead(r: Receipt)
    requires Comparable(r)
    ensures Reads(Policy(r), SectionAt(r, "policy_identity"), {"policy_id", "policy_version", "policy_source_ref"})
    ensures Reads(Consequence(r), SectionAt(r, "consequence_class"),
                  {"class_id", "class_label", "classifier_id", "classifier_version"})
    ensures Reads(Context(r), SectionAt(r, "material_context"),
                  {"context_hash", "context_freshness_state", "stale_context_allowed"})
  {
    hide Reads, Project, SectionAt, Section, HasSection;
    ComparableIffReadable(r);
    ProjectReads(Section(r, "policy_identity"), POLICY_FIELDS, {"policy_id", "policy_version", "policy_source_ref"});
    ProjectReads(Section(r, "consequence_class"), CONSEQUENCE_FIELDS,
                 {"class_id", "class_label", "classifier_id", "classifier_version"});
    ProjectReads(Section(r, "material_context"), CONTEXT_FIELDS,
                 {"context_hash", "context_freshness_state", "stale_context_allowed"});
  }

  // ---------------------------------------------------------------- qualifiers

  ghost predicate NamedSo(qualifier: Json, name: string) {
    && name != "" && qualifier.Obj?
    && "qualifier_name" in qualifier.fields && qualifier.fields["qualifier_name"] == Str(name)
  }

  /** The last entry of a name. */
  ghost predicate IsLast(qualifiers: seq<Json>, name: string, k: nat) {
    && k < |qualifiers| && NamedSo(qualifiers[k], name)
    && forall m :: k < m < |qualifiers| ==> !NamedSo(qualifiers[m], name)
  }

  /** The last qualifier of a name, an absent one counting as empty. */
  ghost function QualifierAt(r: Receipt, name: string): Dict {
    var qualifiers := ListAt(r, "qualifier_state");
    if exists k: nat :: IsLast(qualifiers, name, k) then
      var k: nat :| IsLast(qualifiers, name, k);
      qualifiers[k].fields
    else map[]
  }

  /** The three values a qualifier cause carries for one of the receipts. */
  ghost predicate Reported(j: Json, r: Receipt, name: string) {
    && j.Obj? && j.fields.Keys == {"qualifier_name", "freshness_state", "qualifier_hash"}
    && j.fields["qualifier_name"] == Str(name)
    && j.fields["freshness_state"] == At(QualifierAt(r, name), "freshness_state")
    && j.fields["qualifier_hash"] == At(QualifierAt(r, name), "qualifier_hash")
  }

  ghost predicate QualifierDiffersAt(prior: Receipt, current: Receipt, name: string) {
    DifferAt(QualifierAt(prior, name), QualifierAt(current, name), {"freshness_state", "qualifier_hash"})
  }

  lemma NamedSoIff(qualifier: Json, name: string)
    ensures NamedSo(qualifier, name) <==> IsNamed(qualifier) && NameOf(qualifier) == name
    ensures IsNamed(qualifier) ==> qualifier.Obj?
  {
  }

  lemma QualifierAtIndex(r: Receipt, name: string)
    ensures QualifierAt(r, name) == if name in Qualifiers(r) then Qualifiers(r)[name] else map[]
  {
    hide IsNamed, NameOf, NamedSo, IndexByName;
    var qualifiers := ListAt(r, "qualifier_state");
    assert Entries(r, "qualifier_state") == qualifiers;
    LastQualifierWins(qualifiers, name);
    forall k | 0 <= k < |qualifiers|
      ensures NamedSo(qualifiers[k], name) <==> IsNamed(qualifiers[k]) && NameOf(qualifiers[k]) == name
      ensures IsNamed(qualifiers[k]) ==> qualifiers[k].Obj?
    {
      NamedSoIff(qualifiers[k], name);
    }
    if name in Qualifiers(r) {
      var k: nat :| k < |qualifiers| && IsNamed(qualifiers[k]) && NameOf(qualifiers[k]) == name
                 && IndexByName(qualifiers)[name] == qualifiers[k].fields
                 && forall m :: k < m < |qualifiers| && IsNamed(qualifiers[m]) ==> NameOf(qualifiers[m]) != name;
      assert IsLast(qualifiers, name, k);
    }
  }

  lemma QualifierKeysDiffer()
    ensures "qualifier_name" != "freshness_state" && "qualifier_name" != "qualifier_hash"
  {
    assert "qualifier_name"[10] == 'n' && "freshness_state"[0] == 'f' && "qualifier_hash"[10] == 'h';
  }

  lemma StatesRead(r: Receipt, name: string)
    ensures Reads(Obj(QualifierState(Qualifiers(r), name)), QualifierAt(r, name), {"freshness_state", "qualifier_hash"})
  {
    hide Reads, Project, QualifierAt, Qualifiers;
    QualifierAtIndex(r, name);
    ProjectReads(QualifierAt(r, name), QUALIFIER_FIELDS, {"freshness_state", "qualifier_hash"});
  }

  lemma StateDiffersIff(prior: Receipt, current: Receipt, name: string)
    ensures QualifierState(Qualifiers(prior), name) != QualifierState(Qualifiers(current), name) <==>
            QualifierDiffersAt(prior, current, name)
  {
    hide Reads, QualifierState, QualifierAt, DifferAt, Qualifiers;
    var i, j := QualifierState(Qualifiers(prior), name), QualifierState(Qualifiers(current), name);
    StatesRead(prior, name);
    StatesRead(current, name);
    ReadsDiffer(Obj(i), Obj(j), QualifierAt(prior, name), QualifierAt(current, name),
        {"freshness_state", "qualifier_hash"});
  }

  lemma ReportedIff(j: Json, r: Receipt, name: string)
    ensures Reported(j, r, name) <==> j == NamedState(Qualifiers(r), name)
  {
    hide QualifierAt, QualifierState, Qualifiers;
    QualifierKeysDiffer();
    StatesRead(r, name);
    var state := QualifierState(Qualifiers(r), name);
    var named := NamedState(Qualifiers(r), name);
    assert named.fields.Keys == {"qualifier_name"} + state.Keys;
    assert named.fields["freshness_state"] == state["freshness_state"];
    assert named.fields["qualifier_hash"] == state["qualifier_hash"];
    if Reported(j, r, name) { assert j.fields == named.fields; }
  }

  // ---------------------------------------------------------------- determiners

  ghost predicate IdentifiedSo(determiner: Json, id: string, kind: string) {
    && determiner.Obj?
    && "determiner_id" in determiner.fields && determiner.fields["determiner_id"] == Str(id)
    && "determiner_type" in determiner.fields && determiner.fields["determiner_type"] == Str(kind)
  }

  ghost predicate Uses(r: Receipt, id: string, kind: string) {
    exists k: nat :: k < |ListAt(r, "authorized_determiners_used")|
        && IdentifiedSo(ListAt(r, "authorized_determiners_used")[k], id, kind)
  }

  ghost predicate PairsUsed(r: Receipt, pairs: seq<(string, string)>) {
    forall id, kind :: (id, kind) in pairs <==> Uses(r, id, kind)
  }

  ghost predicate ShowsPairs(j: Json, pairs: seq<(string, string)>) {
    && j.Arr? && |j.items| == |pairs|
    && forall i :: 0 <= i < |pairs| ==> j.items[i] == Json.Arr([Str(pairs[i].0), Str(pairs[i].1)])
  }

  /** `j` lists the identifier and type of each determiner used, each pair once, in ascending order. */
  ghost predicate ListsDeterminers(j: Json, r: Receipt) {
    exists pairs :: ShowsPairs(j, pairs) && Ascending(PairLeq, pairs) && PairsUsed(r, pairs)
  }

  ghost predicate SameDeterminers(prior: Receipt, current: Receipt) {
    forall id, kind :: Uses(prior, id, kind) <==> Uses(current, id, kind)
  }

  lemma {:induction false} IdentitiesAre(determiners: seq<Json>, id: string, kind: string)
    ensures (id, kind) in Identities(determiners) <==>
        exists k: nat :: k < |determiners| && IdentifiedSo(determiners[k], id, kind)
  {
    if determiners != [] {
      var n := |determiners| - 1;
      var before := determiners[..n];
      IdentitiesAre(before, id, kind);
      assert (id, kind) in Identities(determiners) <==>
          (id, kind) in Identities(before) || IdentifiedSo(determiners[n], id, kind);
      hide IdentifiedSo, Identities;
      if k: nat :| k < |before| && IdentifiedSo(before[k], id, kind) { assert IdentifiedSo(determiners[k], id, kind); }
      if k: nat :| k < n && IdentifiedSo(determiners[k], id, kind) { assert IdentifiedSo(before[k], id, kind); }
    }
  }

  lemma UsesIff(r: Receipt, id: string, kind: string)
    ensures Uses(r, id, kind) <==> (id, kind) in Identities(Entries(r, "authorized_determiners_used"))
  {
    hide Identities, IdentifiedSo;
    IdentitiesAre(Entries(r, "authorized_determiners_used"), id, kind);
    assert Entries(r, "authorized_determiners_used") == ListAt(r, "authorized_determiners_used");
  }

  lemma {:induction false} MapShowsPairs(pairs: seq<(string, string)>)
    ensures ShowsPairs(Arr(Map(PairJson, pairs)), pairs)
  {
    if pairs != [] { MapShowsPairs(pairs[1..]); }
  }

  lemma ShownOnce(i: Json, j: Json, pairs: seq<(string, string)>)
    requires ShowsPairs(i, pairs) && ShowsPairs(j, pairs)
    ensures i == j
  {
    assert i.items == j.items;
  }

  lemma DeterminersListed(j: Json, r: Receipt)
    ensures ListsDeterminers(j, r) <==> j == DeterminerIdentitySet(r)
  {
    PairOrder();
    hide TotalOrder, PairLeq, Identities, ShowsPairs, Ascending, Uses, Map;
    var used := Identities(Entries(r, "authorized_determiners_used"));
    forall id, kind ensures Uses(r, id, kind) <==> (id, kind) in used { UsesIff(r, id, kind); }
    var sorted := SortSet(PairLeq, used);
    MapShowsPairs(sorted);
    assert PairsUsed(r, sorted);
    if pairs :| ShowsPairs(j, pairs) && Ascending(PairLeq, pairs) && PairsUsed(r, pairs) {
      forall p ensures p in pairs <==> p in used { assert (p.0, p.1) == p; }
      EnumerationIsUnique(PairLeq, used, pairs, sorted);
      ShownOnce(j, DeterminerIdentitySet(r), sorted);
    }
  }

  lemma DeterminersDiffer(prior: Receipt, current: Receipt)
    ensures DeterminerIdentitySet(prior) == DeterminerIdentitySet(current) <==> SameDeterminers(prior, current)
  {
    hide Identities, Uses, DeterminerIdentitySet;
    IdentitySetsCompareAsSets(prior, current);
    var s, t := Identities(Entries(prior, "authorized_determiners_used")),
        Identities(Entries(current, "authorized_determiners_used"));
    forall id, kind
      ensures Uses(prior, id, kind) <==> (id, kind) in s
      ensures Uses(current, id, kind) <==> (id, kind) in t
    {
      UsesIff(prior, id, kind);
      UsesIff(current, id, kind);
    }
    if SameDeterminers(prior, current) {
      forall p ensures p in s <==> p in t { assert (p.0, p.1) == p; }
    }
  }

  /** Some determiner's scope, as normalised, is empty, "unknown", or mentions either spelling. */
  ghost predicate UsesUnauthorized(r: Receipt, normalize: Json -> string) {
    exists k: nat :: k < |ListAt(r, "authorized_determiners_used")|
        && ScopedBadly(ListAt(r, "authorized_determiners_used")[k], normalize)
  }

  ghost predicate ScopedBadly(determiner: Json, normalize: Json -> string) {
    && determiner.Obj?
    && var scope := normalize(if "authority_scope" in determiner.fields then determiner.fields["authority_scope"]
                              else Str(""));
       scope == "" || scope == "unknown" || Occurs("unauthorized", scope) || Occurs("unauthorised", scope)
  }

  lemma UnauthorizedIff(r: Receipt, normalize: Json -> string)
    ensures HasUnauthorized(r, normalize) <==> UsesUnauthorized(r, normalize)
  {
    hide Occurs, IsUnauthorizedScope, UNAUTHORIZED_MARKERS;
    var determiners := ListAt(r, "authorized_determiners_used");
    assert Entries(r, "authorized_determiners_used") == determiners;
    forall k: nat | k < |determiners|
      ensures IsUnauthorized(determiners[k], normalize) <==> ScopedBadly(determiners[k], normalize)
    {
      if determiners[k].Obj? {
        OnlyTwoMarkersMatter(normalize(GetOr(determiners[k].fields, "authority_scope", Str(""))));
      }
    }
    hide ScopedBadly, IsUnauthorized;
  }

  // ---------------------------------------------------------------- what is reported

  ghost predicate PoliciesDiffer(prior: Receipt, current: Receipt) {
    DifferAt(SectionAt(prior, "policy_identity"), SectionAt(current, "policy_identity"),
             {"policy_id", "policy_version", "policy_source_ref"})
  }

  ghost predicate ConsequencesDiffer(prior: Receipt, current: Receipt) {
    DifferAt(SectionAt(prior, "consequence_class"), SectionAt(current, "consequence_class"),
             {"class_id", "class_label", "classifier_id", "classifier_version"})
  }

  ghost predicate ContextsDiffer(prior: Receipt, current: Receipt) {
    DifferAt(SectionAt(prior, "material_context"), SectionAt(current, "material_context"),
             {"context_hash", "context_freshness_state", "stale_context_allowed"})
  }

  /** The authority evidence, none counting as an empty list. */
  ghost function AuthorityOf(r: Receipt): Json {
    if "authority_evidence_refs" in r then r["authority_evidence_refs"] else Arr([])
  }

  /** No compared field of the receipts differs. */
  ghost predicate NothingDiffers(prior: Receipt, current: Receipt) {
    && At(prior, "evaluator_version") == At(current, "evaluator_version")
    && !PoliciesDiffer(prior, current)
    && At(prior, "rule_set_version") == At(current, "rule_set_version")
    && AuthorityOf(prior) == AuthorityOf(current)
    && (forall name :: !QualifierDiffersAt(prior, current, name))
    && !ConsequencesDiffer(prior, current)
    && !ContextsDiffer(prior, current)
    && SameDeterminers(prior, current)
  }

  ghost predicate Carries(c: Cause, prior: Json, current: Json) { c.prior == prior && c.current == current }

  ghost predicate CarriesSections(c: Cause, prior: Receipt, current: Receipt, key: string, keys: set<string>) {
    Reads(c.prior, SectionAt(prior, key), keys) && Reads(c.current, SectionAt(current, key), keys)
  }

  /** The cause reports a difference between two compared fields, with their values. */
  ghost predicate IsDifference(prior: Receipt, current: Receipt, c: Cause) {
    match c.kind
    case EvaluatorVersionChanged =>
      && At(prior, "evaluator_version") != At(current, "evaluator_version")
      && Carries(c, At(prior, "evaluator_version"), At(current, "evaluator_version"))
    case PolicyIdentityChanged =>
      && PoliciesDiffer(prior, current)
      && CarriesSections(c, prior, current, "policy_identity", {"policy_id", "policy_version", "policy_source_ref"})
    case RuleVersionChanged =>
      && At(prior, "rule_set_version") != At(current, "rule_set_version")
      && Carries(c, At(prior, "rule_set_version"), At(current, "rule_set_version"))
    case AuthorityStateChanged =>
      && AuthorityOf(prior) != AuthorityOf(current)
      && Carries(c, AuthorityOf(prior), AuthorityOf(current))
    case QualifierFreshnessChanged =>
      exists name :: QualifierDiffersAt(prior, current, name)
                  && Reported(c.prior, prior, name) && Reported(c.current, current, name)
    case ConsequenceClassChanged =>
      && ConsequencesDiffer(prior, current)
      && CarriesSections(c, prior, current, "consequence_class",
                         {"class_id", "class_label", "classifier_id", "classifier_version"})
    case MaterialContextChanged =>
      && ContextsDiffer(prior, current)
      && CarriesSections(c, prior, current, "material_context",
                         {"context_hash", "context_freshness_state", "stale_context_allowed"})
    case AuthorizedDeterminerChanged =>
      && !SameDeterminers(prior, current)
      && ListsDeterminers(c.prior, prior) && ListsDeterminers(c.current, current)
    case _ => false
  }

  ghost predicate RatedRight(c: Cause) {
    && (c.severity == High <==> c.kind.AuthorityStateChanged? || c.kind.ConsequenceClassChanged?
                                || c.kind.UnauthorizedDeterminerInfluence? || c.kind.UnexplainedEvaluationDrift?)
    && (c.severity == Info <==> c.kind.GovernedStateChanged?)
  }

  /** Exactly the causes a comparison reports. */
  ghost predicate IsReported(prior: Receipt, current: Receipt, normalize: Json -> string, c: Cause) {
    && RatedRight(c)
    && match c.kind
       case UnauthorizedDeterminerInfluence =>
         && UsesUnauthorized(current, normalize)
         && Carries(c, Str("not_detected_in_prior_receipt"),
                    Str("unauthorized_or_unknown_authority_scope_in_current_receipt"))
       case UnexplainedEvaluationDrift =>
         && NothingDiffers(prior, current) && !UsesUnauthorized(current, normalize)
         && At(prior, "outcome") != At(current, "outcome")
         && Carries(c, At(prior, "outcome"), At(current, "outcome"))
       case GovernedStateChanged =>
         && NothingDiffers(prior, current) && !UsesUnauthorized(current, normalize)
         && At(prior, "outcome") == At(current, "outcome")
         && Carries(c, Str("no_compared_delta_detected"), Str("no_compared_delta_detected"))
       case _ => IsDifference(prior, current, c)
  }

  // ---------------------------------------------------------------- the comparison reports exactly that

  /** What the views of two receipts say, read off the receipts. */
  lemma ViewsSay(prior: Receipt, current: Receipt, normalize: Json -> string)
    requires Comparable(prior) && Comparable(current)
    ensures var a, b := ViewOf(prior, normalize), ViewOf(current, normalize);
            && a.evaluator == At(prior, "evaluator_version") && b.evaluator == At(current, "evaluator_version")
            && a.ruleSet == At(prior, "rule_set_version") && b.ruleSet == At(current, "rule_set_version")
            && a.authority == AuthorityOf(prior) && b.authority == AuthorityOf(current)
            && a.outcome == At(prior, "outcome") && b.outcome == At(current, "outcome")
            && a.qualifiers == Qualifiers(prior) && b.qualifiers == Qualifiers(current)
            && a.policy == Policy(prior) && b.policy == Policy(current)
            && a.consequence == Consequence(prior) && b.consequence == Consequence(current)
            && a.context == Context(prior) && b.context == Context(current)
            && a.determiners == DeterminerIdentitySet(prior) && b.determiners == DeterminerIdentitySet(current)
            && (b.unauthorized <==> UsesUnauthorized(current, normalize))
  {
    hide Policy, Consequence, Context, Qualifiers, DeterminerIdentitySet, HasUnauthorized, UsesUnauthorized;
    UnauthorizedIff(current, normalize);
  }

  /** Two views differ exactly where the receipts do. */
  lemma ViewsDiffer(prior: Receipt, current: Receipt, normalize: Json -> string)
    requires Comparable(prior) && Comparable(current)
    ensures var a, b := ViewOf(prior, normalize), ViewOf(current, normalize);
            && (a.policy != b.policy <==> PoliciesDiffer(prior, current))
            && (a.consequence != b.consequence <==> ConsequencesDiffer(prior, current))
            && (a.context != b.context <==> ContextsDiffer(prior, current))
            && (a.determiners == b.determiners <==> SameDeterminers(prior, current))
            && (QualifiersDiffer(a, b) <==> exists name :: QualifierDiffersAt(prior, current, name))
            && (ProjectionsAgree(a, b) <==> NothingDiffers(prior, current))
  {
    ViewsSay(prior, current, normalize);
    hide ViewOf, Policy, Consequence, Context, Qualifiers, DeterminerIdentitySet, Reads, DifferAt, SectionAt, At,
         QualifierState, SameDeterminers, UsesUnauthorized, Comparable, QualifiersDiffer, QualifierDiffersAt,
         AuthorityOf;
    SectionsRead(prior);
    SectionsRead(current);
    var a, b := ViewOf(prior, normalize), ViewOf(current, normalize);
    ReadsDiffer(a.policy, b.policy, SectionAt(prior, "policy_identity"), SectionAt(current, "policy_identity"),
                {"policy_id", "policy_version", "policy_source_ref"});
    ReadsDiffer(a.consequence, b.consequence, SectionAt(prior, "consequence_class"),
                SectionAt(current, "consequence_class"),
                {"class_id", "class_label", "classifier_id", "classifier_version"});
    ReadsDiffer(a.context, b.context, SectionAt(prior, "material_context"), SectionAt(current, "material_context"),
                {"context_hash", "context_freshness_state", "stale_context_allowed"});
    DeterminersDiffer(prior, current);
    QualifiersDifferIff(prior, current, a, b);
  }

  lemma QualifiersDifferIff(prior: Receipt, current: Receipt, a: View, b: View)
    requires a.qualifiers == Qualifiers(prior) && b.qualifiers == Qualifiers(current)
    ensures QualifiersDiffer(a, b) <==> exists name :: QualifierDiffersAt(prior, current, name)
  {
    hide Qualifiers, QualifierState, QualifierDiffersAt;
    forall name
      ensures QualifierState(a.qualifiers, name) != QualifierState(b.qualifiers, name) <==>
              QualifierDiffersAt(prior, current, name)
    {
      StateDiffersIff(prior, current, name);
    }
  }

  lemma InCompared(kind: CauseType, prior: Json, current: Json, c: Cause)
    ensures c in Compared(kind, prior, current) <==>
            c.kind == kind && c.severity == SeverityOf(kind) && prior != current && Carries(c, prior, current)
  {
    hide SeverityOf;
  }

  lemma ReadOnce(i: Json, j: Json, d: Dict, keys: set<string>)
    requires Reads(i, d, keys)
    ensures Reads(j, d, keys) <==> i == j
  {
    if Reads(j, d, keys) { assert i.fields == j.fields; }
  }

  lemma InQualifierDiffs(prior: Receipt, current: Receipt, c: Cause)
    ensures c in QualifierDiffs(Qualifiers(prior), Qualifiers(current)) <==>
            && c.kind == QualifierFreshnessChanged && c.severity == SeverityOf(QualifierFreshnessChanged)
            && IsDifference(prior, current, c)
  {
    var p, q := Qualifiers(prior), Qualifiers(current);
    QualifierCausesAreDifferences(p, q);
    InMap(QualifierCause(p, q), ReportedNames(p, q), c);
    hide Qualifiers, QualifierState, ReportedNames, Reported, QualifierDiffersAt, Pairwise, NamedState, QualifierDiffs,
         SeverityOf;
    forall name
      ensures QualifierState(p, name) != QualifierState(q, name) <==> QualifierDiffersAt(prior, current, name)
      ensures Reported(c.prior, prior, name) <==> c.prior == NamedState(p, name)
      ensures Reported(c.current, current, name) <==> c.current == NamedState(q, name)
    {
      StateDiffersIff(prior, current, name);
      ReportedIff(c.prior, prior, name);
      ReportedIff(c.current, current, name);
    }
    if c.kind == QualifierFreshnessChanged && c.severity == SeverityOf(QualifierFreshnessChanged)
       && IsDifference(prior, current, c) {
      var name :| QualifierDiffersAt(prior, current, name)
               && Reported(c.prior, prior, name) && Reported(c.current, current, name);
      assert QualifierCause(p, q)(name) == c;
    }
  }

  /** `InFieldDiffs`, still on views. */
  ghost predicate IsViewDifference(a: View, b: View, c: Cause) {
    match c.kind
    case EvaluatorVersionChanged => a.evaluator != b.evaluator && Carries(c, a.evaluator, b.evaluator)
    case PolicyIdentityChanged => a.policy != b.policy && Carries(c, a.policy, b.policy)
    case RuleVersionChanged => a.ruleSet != b.ruleSet && Carries(c, a.ruleSet, b.ruleSet)
    case AuthorityStateChanged => a.authority != b.authority && Carries(c, a.authority, b.authority)
    case QualifierFreshnessChanged => c in QualifierDiffs(a.qualifiers, b.qualifiers)
    case ConsequenceClassChanged => a.consequence != b.consequence && Carries(c, a.consequence, b.consequence)
    case MaterialContextChanged => a.context != b.context && Carries(c, a.context, b.context)
    case AuthorizedDeterminerChanged => a.determiners != b.determiners && Carries(c, a.determiners, b.determiners)
    case _ => false
  }

  lemma InViewDiffs(a: View, b: View, c: Cause)
    requires c in QualifierDiffs(a.qualifiers, b.qualifiers) ==>
               c.kind == QualifierFreshnessChanged && c.severity == SeverityOf(c.kind)
    ensures c in FieldDiffs(a, b) <==> c.severity == SeverityOf(c.kind) && IsViewDifference(a, b, c)
  {
    hide SeverityOf, Compared, QualifierDiffs, Carries;
    InCompared(EvaluatorVersionChanged, a.evaluator, b.evaluator, c);
    InCompared(PolicyIdentityChanged, a.policy, b.policy, c);
    InCompared(RuleVersionChanged, a.ruleSet, b.ruleSet, c);
    InCompared(AuthorityStateChanged, a.authority, b.authority, c);
    InCompared(ConsequenceClassChanged, a.consequence, b.consequence, c);
    InCompared(MaterialContextChanged, a.context, b.context, c);
    InCompared(AuthorizedDeterminerChanged, a.determiners, b.determiners, c);
    var before, after := DiffsBeforeQualifiers(a, b), DiffsAfterQualifiers(a, b);
    assert c in FieldDiffs(a, b) <==> c in before || c in QualifierDiffs(a.qualifiers, b.qualifiers) || c in after;
  }

  lemma InFieldDiffs(prior: Receipt, current: Receipt, normalize: Json -> string, c: Cause)
    requires Comparable(prior) && Comparable(current)
    ensures c in FieldDiffs(ViewOf(prior, normalize), ViewOf(current, normalize)) <==>
            c.severity == SeverityOf(c.kind) && IsDifference(prior, current, c)
  {
    hide *;
    ViewsSay(prior, current, normalize);
    ViewsDiffer(prior, current, normalize);
    var a, b := ViewOf(prior, normalize), ViewOf(current, normalize);
    InQualifierDiffs(prior, current, c);
    InViewDiffs(a, b, c);
    SectionsCarried(prior, current, c);
    SameDifferences(prior, current, a, b, c);
  }

  lemma SameDifferences(prior: Receipt, current: Receipt, a: View, b: View, c: Cause)
    requires Comparable(prior) && Comparable(current)
    requires a.evaluator == At(prior, "evaluator_version") && b.evaluator == At(current, "evaluator_version")
    requires a.ruleSet == At(prior, "rule_set_version") && b.ruleSet == At(current, "rule_set_version")
    requires a.authority == AuthorityOf(prior) && b.authority == AuthorityOf(current)
    requires a.policy == Policy(prior) && b.policy == Policy(current)
    requires a.consequence == Consequence(prior) && b.consequence == Consequence(current)
    requires a.context == Context(prior) && b.context == Context(current)
    requires a.determiners == DeterminerIdentitySet(prior) && b.determiners == DeterminerIdentitySet(current)
    requires a.policy != b.policy <==> PoliciesDiffer(prior, current)
    requires a.consequence != b.consequence <==> ConsequencesDiffer(prior, current)
    requires a.context != b.context <==> ContextsDiffer(prior, current)
    requires a.determiners == b.determiners <==> SameDeterminers(prior, current)
    requires c in QualifierDiffs(a.qualifiers, b.qualifiers) <==>
             && c.kind == QualifierFreshnessChanged && c.severity == SeverityOf(QualifierFreshnessChanged)
             && IsDifference(prior, current, c)
    ensures c.severity == SeverityOf(c.kind) ==> (IsViewDifference(a, b, c) <==> IsDifference(prior, current, c))
  {
    SectionsCarried(prior, current, c);
    hide Carries, CarriesSections, PoliciesDiffer, ConsequencesDiffer, ContextsDiffer, SameDeterminers, AuthorityOf, At,
         Policy, Consequence, Context, DeterminerIdentitySet, QualifierDiffs, SeverityOf, QualifierDiffersAt, Reported,
         ListsDeterminers, Comparable;
  }

  lemma SectionsCarried(prior: Receipt, current: Receipt, c: Cause)
    requires Comparable(prior) && Comparable(current)
    ensures CarriesSections(c, prior, current, "policy_identity", {"policy_id", "policy_version", "policy_source_ref"})
        <==> Carries(c, Policy(prior), Policy(current))
    ensures CarriesSections(c, prior, current, "consequence_class",
                            {"class_id", "class_label", "classifier_id", "classifier_version"})
        <==> Carries(c, Consequence(prior), Consequence(current))
    ensures CarriesSections(c, prior, current, "material_context",
                            {"context_hash", "context_freshness_state", "stale_context_allowed"})
        <==> Carries(c, Context(prior), Context(current))
    ensures ListsDeterminers(c.prior, prior) && ListsDeterminers(c.current, current)
        <==> Carries(c, DeterminerIdentitySet(prior), DeterminerIdentitySet(current))
  {
    hide Reads, Policy, Consequence, Context, DeterminerIdentitySet, SectionAt, ListsDeterminers, Comparable;
    SectionsRead(prior);
    SectionsRead(current);
    ReadOnce(Policy(prior), c.prior, SectionAt(prior, "policy_identity"),
             {"policy_id", "policy_version", "policy_source_ref"});
    ReadOnce(Policy(current), c.current, SectionAt(current, "policy_identity"),
             {"policy_id", "policy_version", "policy_source_ref"});
    ReadOnce(Consequence(prior), c.prior, SectionAt(prior, "consequence_class"),
             {"class_id", "class_label", "classifier_id", "classifier_version"});
    ReadOnce(Consequence(current), c.current, SectionAt(current, "consequence_class"),
             {"class_id", "class_label", "classifier_id", "classifier_version"});
    ReadOnce(Context(prior), c.prior, SectionAt(prior, "material_context"),
             {"context_hash", "context_freshness_state", "stale_context_allowed"});
    ReadOnce(Context(current), c.current, SectionAt(current, "material_context"),
             {"context_hash", "context_freshness_state", "stale_context_allowed"});
    DeterminersListed(c.prior, prior);
    DeterminersListed(c.current, current);
  }

  lemma SeveritiesAreRight(c: Cause)
    ensures c.severity == SeverityOf(c.kind) <==> RatedRight(c)
  {
  }

  /** The causes of two receipts are exactly the ones to report: which types occur, with which values and which
      severity, by nothing but what stands under the keys of the receipts. */
  lemma CausesAreReported(prior: Receipt, current: Receipt, normalize: Json -> string, c: Cause)
    requires Readable(prior) && Readable(current)
    ensures Comparable(prior) && Comparable(current)
    ensures c in Causes(ViewOf(prior, normalize), ViewOf(current, normalize)) <==>
            IsReported(prior, current, normalize, c)
  {
    hide *;
    ComparableIffReadable(prior);
    ComparableIffReadable(current);
    var a, b := ViewOf(prior, normalize), ViewOf(current, normalize);
    ViewsSay(prior, current, normalize);
    ViewsDiffer(prior, current, normalize);
    InFieldDiffs(prior, current, normalize, c);
    NoDiffsIffAgree(a, b);
    SeveritiesAreRight(c);
    DifferencesDiffer(prior, current, c);
    Concluded(prior, current, normalize, a, b, c);
  }

  lemma Concluded(prior: Receipt, current: Receipt, normalize: Json -> string, a: View, b: View, c: Cause)
    requires c in FieldDiffs(a, b) <==> c.severity == SeverityOf(c.kind) && IsDifference(prior, current, c)
    requires FieldDiffs(a, b) == [] <==> NothingDiffers(prior, current)
    requires c.severity == SeverityOf(c.kind) <==> RatedRight(c)
    requires IsDifference(prior, current, c) ==> !NothingDiffers(prior, current)
    requires c.kind.UnauthorizedDeterminerInfluence? || c.kind.UnexplainedEvaluationDrift?
        || c.kind.GovernedStateChanged?
        ==> !IsDifference(prior, current, c)
    requires b.unauthorized <==> UsesUnauthorized(current, normalize)
    requires a.outcome == At(prior, "outcome") && b.outcome == At(current, "outcome")
    ensures c in Causes(a, b) <==> IsReported(prior, current, normalize, c)
  {
    hide FieldDiffs, NothingDiffers, UsesUnauthorized, RatedRight, IsDifference, At, SeverityOf;
    FixedSeverities();
    var diffs := FieldDiffs(a, b);
    if b.unauthorized {
      assert Causes(a, b) == diffs + [INFLUENCE];
    } else {
      assert Found(a, b) == diffs;
    }
  }

  lemma FixedSeverities()
    ensures INFLUENCE.severity == SeverityOf(UnauthorizedDeterminerInfluence) == High
    ensures NO_DELTA.severity == SeverityOf(GovernedStateChanged) == Info
  {
  }

  lemma DifferencesDiffer(prior: Receipt, current: Receipt, c: Cause)
    ensures IsDifference(prior, current, c) ==> !NothingDiffers(prior, current)
    ensures c.kind.UnauthorizedDeterminerInfluence? || c.kind.UnexplainedEvaluationDrift?
        || c.kind.GovernedStateChanged?
        ==> !IsDifference(prior, current, c)
  {
    hide Reads, PoliciesDiffer, ConsequencesDiffer, ContextsDiffer, SameDeterminers, QualifierDiffersAt, Reported,
         AuthorityOf;
  }

  // ---------------------------------------------------------------- the order of the causes

  /** The order in which the comparison goes through the fields. */
  ghost function Rank(kind: CauseType): nat {
    match kind
    case EvaluatorVersionChanged => 0
    case PolicyIdentityChanged => 1
    case RuleVersionChanged => 2
    case AuthorityStateChanged => 3
    case QualifierFreshnessChanged => 4
    case ConsequenceClassChanged => 5
    case MaterialContextChanged => 6
    case AuthorizedDeterminerChanged => 7
    case UnauthorizedDeterminerInfluence => 8
    case _ => 9
  }

  ghost predicate NamesQualifier(j: Json, name: string) {
    j.Obj? && "qualifier_name" in j.fields && j.fields["qualifier_name"] == Str(name)
  }

  /** Causes come in field order, those of qualifiers by ascending name. */
  ghost predicate Before(c: Cause, d: Cause) {
    || Rank(c.kind) < Rank(d.kind)
    || (c.kind.QualifierFreshnessChanged? && d.kind.QualifierFreshnessChanged?
        && exists n, m :: StrictlyBelow(n, m) && NamesQualifier(c.prior, n) && NamesQualifier(d.prior, m))
  }

  lemma PairwiseAppend<T(!new)>(related: (T, T) -> bool, s: seq<T>, t: seq<T>)
    requires Pairwise(related, s) && Pairwise(related, t) && forall x, y :: x in s && y in t ==> related(x, y)
    ensures Pairwise(related, s + t)
  {
    var both := s + t;
    forall i, j | 0 <= i < j < |both| ensures related(both[i], both[j]) {
      if i < |s| <= j { assert both[i] in s && both[j] in t; }
    }
  }

  ghost predicate InRange(causes: seq<Cause>, low: nat, high: nat) {
    forall c :: c in causes ==> low <= Rank(c.kind) < high
  }

  lemma ComparedOnce(kind: CauseType, prior: Json, current: Json)
    ensures Pairwise(Before, Compared(kind, prior, current))
    ensures InRange(Compared(kind, prior, current), Rank(kind), Rank(kind) + 1)
  {
  }

  lemma RangesAppend(s: seq<Cause>, t: seq<Cause>, low: nat, mid: nat, high: nat)
    requires low <= mid <= high
    requires Pairwise(Before, s) && Pairwise(Before, t) && InRange(s, low, mid) && InRange(t, mid, high)
    ensures Pairwise(Before, s + t) && InRange(s + t, low, high)
  {
    hide Rank, Pairwise;
    PairwiseAppend(Before, s, t);
  }

  lemma BeforeQualifiersOrdered(a: View, b: View)
    ensures Pairwise(Before, DiffsBeforeQualifiers(a, b)) && InRange(DiffsBeforeQualifiers(a, b), 0, 4)
  {
    hide Compared, Pairwise, InRange;
    var d1 := Compared(EvaluatorVersionChanged, a.evaluator, b.evaluator);
    var d2 := Compared(PolicyIdentityChanged, a.policy, b.policy);
    var d3 := Compared(RuleVersionChanged, a.ruleSet, b.ruleSet);
    var d4 := Compared(AuthorityStateChanged, a.authority, b.authority);
    ComparedOnce(EvaluatorVersionChanged, a.evaluator, b.evaluator);
    ComparedOnce(PolicyIdentityChanged, a.policy, b.policy);
    ComparedOnce(RuleVersionChanged, a.ruleSet, b.ruleSet);
    ComparedOnce(AuthorityStateChanged, a.authority, b.authority);
    RangesAppend(d1, d2, 0, 1, 2);
    RangesAppend(d1 + d2, d3, 0, 2, 3);
    RangesAppend(d1 + d2 + d3, d4, 0, 3, 4);
  }

  lemma AfterQualifiersOrdered(a: View, b: View)
    ensures Pairwise(Before, DiffsAfterQualifiers(a, b)) && InRange(DiffsAfterQualifiers(a, b), 5, 8)
  {
    hide Compared, Pairwise, InRange;
    var d1 := Compared(ConsequenceClassChanged, a.consequence, b.consequence);
    var d2 := Compared(MaterialContextChanged, a.context, b.context);
    var d3 := Compared(AuthorizedDeterminerChanged, a.determiners, b.determiners);
    ComparedOnce(ConsequenceClassChanged, a.consequence, b.consequence);
    ComparedOnce(MaterialContextChanged, a.context, b.context);
    ComparedOnce(AuthorizedDeterminerChanged, a.determiners, b.determiners);
    RangesAppend(d1, d2, 5, 6, 7);
    RangesAppend(d1 + d2, d3, 5, 7, 8);
  }

  lemma {:induction false} QualifierCausesOrdered(p: map<string, Dict>, q: map<string, Dict>, names: seq<string>)
    requires Pairwise(StrictlyBelow, names)
    ensures Pairwise(Before, Map(QualifierCause(p, q), names)) && InRange(Map(QualifierCause(p, q), names), 4, 5)
  {
    hide Pairwise, QualifierState, StringLeq, StrictlyBelow;
    if names == [] {
      assert Pairwise(Before, []) by { NothingPairwise(); }
    } else {
      PairwiseTail(StrictlyBelow, names);
      QualifierCausesOrdered(p, q, names[1..]);
      var first, rest := QualifierCause(p, q)(names[0]), Map(QualifierCause(p, q), names[1..]);
      hide QualifierCause, Before;
      forall y | y in rest ensures Before(first, y) {
        InMap(QualifierCause(p, q), names[1..], y);
        var m :| m in names[1..] && QualifierCause(p, q)(m) == y;
        QualifierCausesBefore(p, q, names[0], m);
      }
      QualifierCauseKinds(p, q, names);
      PairwiseCons(Before, first, rest);
    }
  }

  lemma QualifierCausesBefore(p: map<string, Dict>, q: map<string, Dict>, n: string, m: string)
    requires StrictlyBelow(n, m)
    ensures Before(QualifierCause(p, q)(n), QualifierCause(p, q)(m))
  {
    hide StrictlyBelow, NamedState, NamesQualifier;
    NamedStateIsNamed(p, n);
    NamedStateIsNamed(p, m);
    assert NamesQualifier(QualifierCause(p, q)(n).prior, n) && NamesQualifier(QualifierCause(p, q)(m).prior, m);
  }

  lemma QualifierCauseKinds(p: map<string, Dict>, q: map<string, Dict>, names: seq<string>)
    ensures InRange(Map(QualifierCause(p, q), names), 4, 5)
  {
    hide NamedState;
    forall c | c in Map(QualifierCause(p, q), names) ensures Rank(c.kind) == 4 {
      InMap(QualifierCause(p, q), names, c);
    }
  }

  lemma NothingPairwise()
    ensures Pairwise(Before, [])
  {
  }

  lemma NamedStateIsNamed(index: map<string, Dict>, name: string)
    ensures NamesQualifier(NamedState(index, name), name)
  {
    QualifierKeysDiffer();
  }

  /** The causes come in the order of the fields, qualifiers by ascending name, so no field is reported twice. */
  lemma CausesInOrder(a: View, b: View)
    ensures Pairwise(Before, Causes(a, b))
  {
    hide *;
    FieldDiffsOrdered(a, b);
    SingleOrdered(INFLUENCE);
    SingleOrdered(NO_DELTA);
    SingleOrdered(MakeCause(UnexplainedEvaluationDrift, a.outcome, b.outcome));
    InfluenceComesLast();
    RangesAppend(FieldDiffs(a, b), [INFLUENCE], 0, 8, 9);
    CausesAre(a, b);
  }

  lemma CausesAre(a: View, b: View)
    ensures Causes(a, b) in {FieldDiffs(a, b), FieldDiffs(a, b) + [INFLUENCE], [NO_DELTA],
                             [MakeCause(UnexplainedEvaluationDrift, a.outcome, b.outcome)]}
  {
    hide FieldDiffs, INFLUENCE, NO_DELTA, MakeCause;
    assert FieldDiffs(a, b) + [] == FieldDiffs(a, b);
  }

  lemma InfluenceComesLast()
    ensures InRange([INFLUENCE], 8, 9)
  {
  }

  lemma FieldDiffsOrdered(a: View, b: View)
    ensures Pairwise(Before, FieldDiffs(a, b)) && InRange(FieldDiffs(a, b), 0, 8)
  {
    hide Pairwise, InRange, DiffsBeforeQualifiers, DiffsAfterQualifiers, QualifierDiffs, Before, ReportedNames, Map,
         QualifierState, StrictlyBelow;
    BeforeQualifiersOrdered(a, b);
    AfterQualifiersOrdered(a, b);
    QualifierCausesAreDifferences(a.qualifiers, b.qualifiers);
    QualifierCausesOrdered(a.qualifiers, b.qualifiers, ReportedNames(a.qualifiers, b.qualifiers));
    RangesAppend(DiffsBeforeQualifiers(a, b), QualifierDiffs(a.qualifiers, b.qualifiers), 0, 4, 5);
    RangesAppend(DiffsBeforeQualifiers(a, b) + QualifierDiffs(a.qualifiers, b.qualifiers),
                 DiffsAfterQualifiers(a, b), 0, 5, 8);
  }

  lemma SingleOrdered(c: Cause)
    ensures Pairwise(Before, [c]) && InRange([c], Rank(c.kind), Rank(c.kind) + 1)
  {
  }

  // ---------------------------------------------------------------- the attribution

  lemma ConcludingReasons(prior: Receipt, current: Receipt, normalize: Json -> string)
    requires Comparable(prior) && Comparable(current)
    ensures var causes := Causes(ViewOf(prior, normalize), ViewOf(current, normalize));
            var unauthorized := UsesUnauthorized(current, normalize);
            && (HasCause(causes, UnauthorizedDeterminerInfluence) <==> unauthorized)
            && (HasCause(causes, UnexplainedEvaluationDrift) <==>
                NothingDiffers(prior, current) && !unauthorized && At(prior, "outcome") != At(current, "outcome"))
            && (HasCause(causes, GovernedStateChanged) <==>
                NothingDiffers(prior, current) && !unauthorized && At(prior, "outcome") == At(current, "outcome"))
  {
    hide *;
    ViewsSay(prior, current, normalize);
    ViewsDiffer(prior, current, normalize);
    ConcludingCauses(ViewOf(prior, normalize), ViewOf(current, normalize));
  }

  lemma ConcludingCauses(a: View, b: View)
    ensures HasCause(Causes(a, b), UnauthorizedDeterminerInfluence) <==> b.unauthorized
    ensures HasCause(Causes(a, b), UnexplainedEvaluationDrift) <==>
            ProjectionsAgree(a, b) && !b.unauthorized && a.outcome != b.outcome
    ensures HasCause(Causes(a, b), GovernedStateChanged) <==>
            ProjectionsAgree(a, b) && !b.unauthorized && a.outcome == b.outcome
  {
    hide Causes, HasCause, ProjectionsAgree;
    CausesHaveCause(a, b, UnauthorizedDeterminerInfluence);
    CausesHaveCause(a, b, UnexplainedEvaluationDrift);
    CausesHaveCause(a, b, GovernedStateChanged);
  }

  /** What the attribution adds to its causes: the outcome flag, the unresolved flag, the confidence and the proposed
      action, again by what stands in the receipts. */
  lemma AttributionOfReceipts(prior: Receipt, current: Receipt, normalize: Json -> string, render: Json -> string)
    requires Readable(prior) && Readable(current)
    ensures Comparable(prior) && Comparable(current)
    ensures var r := Attribute(prior, current, normalize, render);
            var unauthorized := UsesUnauthorized(current, normalize);
            var unexplained := NothingDiffers(prior, current) && !unauthorized
                               && At(prior, "outcome") != At(current, "outcome");
            var settled := NothingDiffers(prior, current) && !unauthorized
                             && At(prior, "outcome") == At(current, "outcome");
            && (r.outcomeChanged <==> render(if "outcome" in prior then prior["outcome"] else Str("undetermined")) !=
                                      render(if "outcome" in current then current["outcome"] else Str("undetermined")))
            && (r.unresolvedPresent <==> unexplained)
            && (r.confidence == LowConfidence <==> unexplained)
            && (r.confidence == HighConfidence <==> r.outcomeChanged && !unexplained)
            && (r.action == Escalate <==> unauthorized)
            && (r.action == MarkEvaluationDrift <==> unexplained)
            && (r.action == NoAction <==> settled && !r.outcomeChanged)
  {
    hide *;
    ComparableIffReadable(prior);
    ComparableIffReadable(current);
    var a, b := ViewOf(prior, normalize), ViewOf(current, normalize);
    ConcludingReasons(prior, current, normalize);
    CausesShape(a, b);
    AttributionFromViews(prior, current, normalize, render, a, b);
  }

  lemma AttributionFromViews(prior: Receipt, current: Receipt, normalize: Json -> string, render: Json -> string,
                             a: View, b: View)
    requires Comparable(prior) && Comparable(current)
    requires a == ViewOf(prior, normalize) && b == ViewOf(current, normalize)
    requires Causes(a, b) != []
    requires HasCause(Causes(a, b), GovernedStateChanged) ==> |Causes(a, b)| == 1
    ensures var r := Attribute(prior, current, normalize, render);
            var unauthorized := HasCause(Causes(a, b), UnauthorizedDeterminerInfluence);
            var unexplained := HasCause(Causes(a, b), UnexplainedEvaluationDrift);
            var settled := HasCause(Causes(a, b), GovernedStateChanged);
            && (r.outcomeChanged <==> render(if "outcome" in prior then prior["outcome"] else Str("undetermined")) !=
                                      render(if "outcome" in current then current["outcome"] else Str("undetermined")))
            && (r.unresolvedPresent <==> unexplained)
            && (r.confidence == LowConfidence <==> unexplained)
            && (r.confidence == HighConfidence <==> r.outcomeChanged && !unexplained)
            && (r.action == Escalate <==> unauthorized)
            && (r.action == MarkEvaluationDrift <==> unexplained && !unauthorized)
            && (r.action == NoAction <==> settled && !r.outcomeChanged)
  {
    hide ViewOf, Causes, Comparable;
    var causes := Causes(a, b);
    assert HasCause(causes, causes[0].kind);
    if HasCause(causes, GovernedStateChanged) { assert causes == [causes[0]]; }
  }
}
