/** The import-boundary checker `scripts/architecture/check_responsibility_boundaries.py`.

    A `Snapshot` is what one run sees of the file system: which source files each module has, and what reading and
    parsing each of them gives. */
module BoundaryChecker {
  import opened Lists
  import opened Optional
  import opened Orders
  import opened Text

  const LOGICAL_CORE_MODULES: seq<string> := ["planner", "kernel", "fuji", "memory", "pipeline"]

  datatype Rule = Rule(sourceModule: string, forbiddenImports: set<string>)

  /** A file that parses is known by the module names it imports. */
  datatype File = Missing | Denied | BadSyntax(line: int) | Parsed(moduleNames: set<string>)

  /** The candidate files of a module: `core/m.py`, `core/m/__init__.py`, `core/m_*.py`, and the helpers below
      `core/m/`. */
  datatype Layout = Layout(flatPath: string, flatExists: bool, initPath: string, initExists: bool,
                           shims: seq<string>, helpers: seq<string>)

  datatype Snapshot = Snapshot(layout: string -> Layout, read: string -> File)

  datatype Message =
    | NotFound(sourceModule: string, path: string)
    | PermissionDenied(path: string)
    | InvalidSyntax(path: string, line: int)
    | ForbiddenImport(sourceModule: string, forbiddenModule: string, path: string)
    | Guidance(text: string)

  datatype Issue = Issue(code: string, message: Message, path: string, sourceModule: string,
      forbiddenModule: Option<string>)

  datatype Violation = Violation(sourceModule: string, forbiddenModule: string, path: string)

  // ---------------------------------------------------------------- helper imports

  predicate IsHelperOf(name: string, logical: string) { StartsWith(name, logical + "_") }

  /** The names with the logical modules whose helpers are among them. */
  function Expanded(names: set<string>): set<string> {
    names + set logical | logical in LOGICAL_CORE_MODULES && exists name :: name in names && IsHelperOf(name, logical)
  }

  /** `_expand_logical_import_aliases`. */
  method ExpandLogicalImportAliases(names: set<string>) returns (expanded: set<string>)
    ensures expanded == Expanded(names)
  {
    hide IsHelperOf, LOGICAL_CORE_MODULES;
    expanded := names;
    var rest := names;
    while rest != {}
      invariant rest <= names
      invariant expanded == names + set logical | logical in LOGICAL_CORE_MODULES &&
                                                  exists name :: name in names - rest && IsHelperOf(name, logical)
      decreases rest
    {
      var name :| name in rest;
      ghost var before := expanded;
      var k := 0;
      while k < |LOGICAL_CORE_MODULES|
        invariant 0 <= k <= |LOGICAL_CORE_MODULES|
        invariant expanded == before + set logical | logical in LOGICAL_CORE_MODULES[..k] && IsHelperOf(name, logical)
      {
        assert LOGICAL_CORE_MODULES[..k + 1] == LOGICAL_CORE_MODULES[..k] + [LOGICAL_CORE_MODULES[k]];
        if IsHelperOf(name, LOGICAL_CORE_MODULES[k]) { expanded := expanded + {LOGICAL_CORE_MODULES[k]}; }
        k := k + 1;
      }
      assert LOGICAL_CORE_MODULES[..k] == LOGICAL_CORE_MODULES;
      ghost var seen := names - rest;
      rest := rest - {name};
      assert names - rest == seen + {name};
    }
    assert names - rest == names;
  }

  /** No logical module is a helper of another, so expanding again adds nothing. */
  lemma LogicalModulesAreNoHelpers(logical: string, other: string)
    requires logical in LOGICAL_CORE_MODULES && other in LOGICAL_CORE_MODULES
    ensures !IsHelperOf(logical, other)
  {
    assert forall k :: 0 <= k < |logical| ==> logical[k] != '_';
    NotPrefix(logical, other + "_", |other|);
  }

  lemma NotPrefix(s: string, prefix: string, k: nat)
    requires k < |prefix| && prefix[k] !in s
    ensures !StartsWith(s, prefix)
  {
    assert k < |s| ==> s[k] in s;
  }

  lemma ExpansionIsIdempotent(names: set<string>)
    ensures Expanded(Expanded(names)) == Expanded(names)
  {
    var once := Expanded(names);
    forall logical | logical in Expanded(once) ensures logical in once {
      if logical !in once {
        var name :| name in once && IsHelperOf(name, logical);
        if name !in names { LogicalModulesAreNoHelpers(name, logical); }
      }
    }
  }

  lemma ExpansionIsMonotone(names: set<string>, more: set<string>)
    requires names <= more
    ensures Expanded(names) <= Expanded(more)
  {
  }

  // ---------------------------------------------------------------- source files

  function Candidates(layout: Layout): seq<string> {
    (if layout.flatExists then [layout.flatPath] else []) + (if layout.initExists then [layout.initPath] else []) +
    layout.shims + layout.helpers
  }

  function Same(path: string): string { path }

  function SourcePaths(layout: Layout): seq<string> {
    if Candidates(layout) == [] then [layout.flatPath] else FirstByKey(Same, Candidates(layout))
  }

  /** `_resolve_module_source_paths`. */
  method ResolveModuleSourcePaths(layout: Layout) returns (paths: seq<string>)
    ensures paths == SourcePaths(layout)
  {
    var candidates: seq<string> := [];
    if layout.flatExists { candidates := candidates + [layout.flatPath]; }
    if layout.initExists { candidates := candidates + [layout.initPath]; }
    candidates := candidates + layout.shims;
    candidates := candidates + layout.helpers;
    assert candidates == Candidates(layout);
    paths := Unique(candidates);
    if paths == [] { paths := [layout.flatPath]; }
  }

  method Unique(candidates: seq<string>) returns (paths: seq<string>)
    ensures paths == FirstByKey(Same, candidates)
    ensures candidates != [] ==> paths != []
  {
    FirstByKeyOnce(Same, candidates);
    NothingYet();
    hide FirstByKey, Keys;
    paths := [];
    var seen: set<string> := {};
    var k := 0;
    while k < |candidates|
      invariant 0 <= k <= |candidates|
      invariant seen == Keys(Same, candidates[..k])
      invariant paths == FirstByKey(Same, candidates[..k])
    {
      FirstByKeySnoc(Same, candidates, k);
      if candidates[k] !in seen {
        seen := seen + {candidates[k]};
        paths := paths + [candidates[k]];
      }
      k := k + 1;
    }
    assert candidates[..k] == candidates;
  }

  lemma NothingYet()
    ensures Keys(Same, []) == {} && FirstByKey(Same, []) == []
  {
  }

  predicate Distinct(paths: seq<string>) { forall i, j :: 0 <= i < j < |paths| ==> paths[i] != paths[j] }

  lemma {:induction false} FirstOfDistinct(paths: seq<string>)
    requires Distinct(paths)
    ensures FirstByKey(Same, paths) == paths
  {
    if paths != [] {
      var n := |paths| - 1;
      FirstOfDistinct(paths[..n]);
      KeysMembers(Same, paths[..n]);
      assert paths[n] !in paths[..n];
      assert paths == paths[..n] + [paths[n]];
    }
  }

  /** Some file of the module exists under this path. */
  ghost predicate Exists(layout: Layout, path: string) {
    || (layout.flatExists && path == layout.flatPath) || (layout.initExists && path == layout.initPath)
    || path in layout.shims || path in layout.helpers
  }

  /** No file of a module is scanned twice and none is left out, be it the flat file, the package file, a shim or a
      helper, and they are scanned in this order; a module without files still has one path, whose absence is then
      reported. */
  lemma SourcePathsCoverOnce(layout: Layout)
    ensures SourcePaths(layout) != [] && Distinct(SourcePaths(layout))
    ensures (exists p :: Exists(layout, p)) ==> forall p :: p in SourcePaths(layout) <==> Exists(layout, p)
    ensures (forall p :: !Exists(layout, p)) ==> SourcePaths(layout) == [layout.flatPath]
    ensures var all := [layout.flatPath, layout.initPath] + layout.shims + layout.helpers;
            layout.flatExists && layout.initExists && Distinct(all) ==> SourcePaths(layout) == all
  {
    var candidates := Candidates(layout);
    CandidatesExist(layout);
    FirstByKeyOnce(Same, candidates);
    KeysMembers(Same, candidates);
    KeysMembers(Same, FirstByKey(Same, candidates));
    if Distinct(candidates) { FirstOfDistinct(candidates); }
    hide FirstByKey, Keys, Candidates, Exists, Distinct;
    if candidates == [] {
      assert Distinct(SourcePaths(layout)) by { OneIsDistinct(layout.flatPath); }
      assert forall p :: !Exists(layout, p);
    } else {
      assert candidates[0] in candidates;
      assert Distinct(FirstByKey(Same, candidates)) by { OnceIsDistinct(FirstByKey(Same, candidates)); }
      forall p ensures p in SourcePaths(layout) <==> p in candidates {
        assert p in SourcePaths(layout) <==> Same(p) in Keys(Same, FirstByKey(Same, candidates));
        assert p in candidates <==> Same(p) in Keys(Same, candidates);
      }
    }
  }

  lemma OneIsDistinct(path: string)
    ensures Distinct([path])
  {
  }

  lemma OnceIsDistinct(paths: seq<string>)
    requires forall i, j :: 0 <= i < j < |paths| ==> Same(paths[i]) != Same(paths[j])
    ensures Distinct(paths)
  {
    forall i, j | 0 <= i < j < |paths| ensures paths[i] != paths[j] { assert Same(paths[i]) != Same(paths[j]); }
  }

  lemma CandidatesExist(layout: Layout)
    ensures forall p :: p in Candidates(layout) <==> Exists(layout, p)
    ensures layout.flatExists && layout.initExists ==>
        Candidates(layout) == [layout.flatPath, layout.initPath] + layout.shims + layout.helpers
  {
  }

  // ---------------------------------------------------------------- what one file gives

  /** `sorted(imported & forbidden)`. */
  function Breaches(rule: Rule, moduleNames: set<string>): seq<string> {
    StringOrder();
    SortSet(StringLeq, Expanded(moduleNames) * rule.forbiddenImports)
  }

  lemma LogicalModules()
    ensures forall m :: m in LOGICAL_CORE_MODULES <==> m in {"planner", "kernel", "fuji", "memory", "pipeline"}
  {
  }

  /** A forbidden module is named exactly if it, or one of its helpers, is imported; each once, in order. */
  lemma BreachesAreImports(rule: Rule, moduleNames: set<string>)
    ensures forall m :: m in Breaches(rule, moduleNames) <==>
              && m in rule.forbiddenImports
              && (m in moduleNames ||
                  (m in {"planner", "kernel", "fuji", "memory", "pipeline"}
                   && exists name :: name in moduleNames && m + "_" <= name))
    ensures Ascending(StringLeq, Breaches(rule, moduleNames))
  {
    StringOrder();
    LogicalModules();
    hide LOGICAL_CORE_MODULES, StringLeq;
    forall name, m ensures IsHelperOf(name, m) <==> m + "_" <= name {}
  }

  function BreachIssue(rule: Rule, path: string): string -> Issue {
    (m: string) => Issue("boundary_violation", ForbiddenImport(rule.sourceModule, m, path), path, rule.sourceModule,
        Some(m))
  }

  function BreachViolation(rule: Rule, path: string): string -> Violation {
    (m: string) => Violation(rule.sourceModule, m, path)
  }

  function BreachMessage(rule: Rule, path: string): string -> Message {
    (m: string) => ForbiddenImport(rule.sourceModule, m, path)
  }

  function PathIssues(snapshot: Snapshot, rule: Rule): string -> seq<Issue> {
    (path: string) =>
      match snapshot.read(path)
      case Missing => [Issue("input_invalid", NotFound(rule.sourceModule, path), path, rule.sourceModule, None)]
      case Denied => [Issue("permission_denied", PermissionDenied(path), path, rule.sourceModule, None)]
      case BadSyntax(line) => [Issue("input_invalid", InvalidSyntax(path, line), path, rule.sourceModule, None)]
      case Parsed(names) => Map(BreachIssue(rule, path), Breaches(rule, names))
  }

  function PathViolations(snapshot: Snapshot, rule: Rule): string -> seq<Violation> {
    (path: string) =>
      if snapshot.read(path).Parsed? then Map(BreachViolation(rule, path),
          Breaches(rule, snapshot.read(path).moduleNames)) else []
  }

  function PathMessages(snapshot: Snapshot, rule: Rule): string -> seq<Message> {
    (path: string) =>
      match snapshot.read(path)
      case Missing => [NotFound(rule.sourceModule, path)]
      case Denied => [PermissionDenied(path)]
      case BadSyntax(line) => [InvalidSyntax(path, line)]
      case Parsed(names) => Map(BreachMessage(rule, path), Breaches(rule, names))
  }

  function RulePaths(snapshot: Snapshot, rule: Rule): seq<string> { SourcePaths(snapshot.layout(rule.sourceModule)) }

  function RuleIssues(snapshot: Snapshot): Rule -> seq<Issue> {
    (rule: Rule) => FlatMap(PathIssues(snapshot, rule), RulePaths(snapshot, rule))
  }

  function RuleViolations(snapshot: Snapshot): Rule -> seq<Violation> {
    (rule: Rule) => FlatMap(PathViolations(snapshot, rule), RulePaths(snapshot, rule))
  }

  function RuleMessages(snapshot: Snapshot): Rule -> seq<Message> {
    (rule: Rule) => FlatMap(PathMessages(snapshot, rule), RulePaths(snapshot, rule))
  }

  // ---------------------------------------------------------------- the three collectors

  /** `collect_boundary_issues`; `guidance` are the issues of the two documentation checks, which come first. */
  method CollectBoundaryIssues(snapshot: Snapshot, rules: seq<Rule>, guidance: seq<Issue>) returns (issues: seq<Issue>)
    ensures issues == guidance + FlatMap(RuleIssues(snapshot), rules)
  {
    hide FlatMap, PathIssues, RulePaths;
    issues := guidance;
    FlatMapEmpty(RuleIssues(snapshot));
    var r := 0;
    while r < |rules|
      invariant 0 <= r <= |rules|
      invariant issues == guidance + FlatMap(RuleIssues(snapshot), rules[..r])
    {
      var rule := rules[r];
      var paths := RulePaths(snapshot, rule);
      ghost var before := issues;
      FlatMapEmpty(PathIssues(snapshot, rule));
      var p := 0;
      while p < |paths|
        invariant 0 <= p <= |paths|
        invariant issues == before + FlatMap(PathIssues(snapshot, rule), paths[..p])
      {
        FlatMapSnoc(PathIssues(snapshot, rule), paths, p);
        var found := CollectPathIssues(snapshot, rule, paths[p]);
        issues := issues + found;
        p := p + 1;
      }
      assert paths[..p] == paths;
      FlatMapSnoc(RuleIssues(snapshot), rules, r);
      r := r + 1;
    }
    assert rules[..r] == rules;
  }

  method CollectPathIssues(snapshot: Snapshot, rule: Rule, path: string) returns (issues: seq<Issue>)
    ensures issues == PathIssues(snapshot, rule)(path)
  {
    hide Breaches;
    match snapshot.read(path) {
      case Missing =>
        issues := [Issue("input_invalid", NotFound(rule.sourceModule, path), path, rule.sourceModule, None)];
      case Denied =>
        issues := [Issue("permission_denied", PermissionDenied(path), path, rule.sourceModule, None)];
      case BadSyntax(line) =>
        issues := [Issue("input_invalid", InvalidSyntax(path, line), path, rule.sourceModule, None)];
      case Parsed(names) =>
        issues := AppendBreaches(rule, path, Breaches(rule, names));
    }
  }

  method AppendBreaches(rule: Rule, path: string, violations: seq<string>) returns (issues: seq<Issue>)
    ensures issues == Map(BreachIssue(rule, path), violations)
  {
    issues := [];
    var k := 0;
    while k < |violations|
      invariant 0 <= k <= |violations|
      invariant issues == Map(BreachIssue(rule, path), violations[..k])
    {
      assert violations[..k + 1] == violations[..k] + [violations[k]];
      MapAppend(BreachIssue(rule, path), violations[..k], [violations[k]]);
      issues := issues + [Issue("boundary_violation", ForbiddenImport(rule.sourceModule, violations[k], path), path,
                                rule.sourceModule, Some(violations[k]))];
      k := k + 1;
    }
    assert violations[..k] == violations;
  }

  lemma FlatMapEmpty<T, U>(f: T -> seq<U>)
    ensures FlatMap(f, []) == []
  {
  }

  /** `_collect_violations`. */
  method CollectViolations(snapshot: Snapshot, rules: seq<Rule>) returns (violations: seq<Violation>)
    ensures violations == FlatMap(RuleViolations(snapshot), rules)
  {
    hide FlatMap, Breaches, RulePaths;
    violations := [];
    FlatMapEmpty(RuleViolations(snapshot));
    var r := 0;
    while r < |rules|
      invariant 0 <= r <= |rules|
      invariant violations == FlatMap(RuleViolations(snapshot), rules[..r])
    {
      var rule := rules[r];
      var paths := RulePaths(snapshot, rule);
      ghost var before := violations;
      FlatMapEmpty(PathViolations(snapshot, rule));
      var p := 0;
      while p < |paths|
        invariant 0 <= p <= |paths|
        invariant violations == before + FlatMap(PathViolations(snapshot, rule), paths[..p])
      {
        FlatMapSnoc(PathViolations(snapshot, rule), paths, p);
        var file := snapshot.read(paths[p]);
        if file.Parsed? {
          violations := violations + Map(BreachViolation(rule, paths[p]), Breaches(rule, file.moduleNames));
        }
        p := p + 1;
      }
      assert paths[..p] == paths;
      FlatMapSnoc(RuleViolations(snapshot), rules, r);
      r := r + 1;
    }
    assert rules[..r] == rules;
  }

  /** `_check_rule`. */
  method CheckRule(snapshot: Snapshot, rule: Rule) returns (messages: seq<Message>)
    ensures messages == RuleMessages(snapshot)(rule)
  {
    hide FlatMap, Breaches, RulePaths;
    messages := [];
    var paths := RulePaths(snapshot, rule);
    FlatMapEmpty(PathMessages(snapshot, rule));
    var p := 0;
    while p < |paths|
      invariant 0 <= p <= |paths|
      invariant messages == FlatMap(PathMessages(snapshot, rule), paths[..p])
    {
      FlatMapSnoc(PathMessages(snapshot, rule), paths, p);
      match snapshot.read(paths[p]) {
        case Missing => messages := messages + [NotFound(rule.sourceModule, paths[p])];
        case Denied => messages := messages + [PermissionDenied(paths[p])];
        case BadSyntax(line) => messages := messages + [InvalidSyntax(paths[p], line)];
        case Parsed(names) => messages := messages + Map(BreachMessage(rule, paths[p]), Breaches(rule, names));
      }
      p := p + 1;
    }
    assert paths[..p] == paths;
  }

  // ---------------------------------------------------------------- what the issues say

  /** The issue reports what is wrong with one file: it cannot be read or parsed, or it imports what it must not. */
  ghost predicate Reports(issue: Issue, rule: Rule, path: string, file: File) {
    && issue.path == path && issue.sourceModule == rule.sourceModule
    && match file
       case Missing =>
         && issue.code == "input_invalid" && issue.message == NotFound(rule.sourceModule, path)
         && issue.forbiddenModule == None
       case Denied =>
         issue.code == "permission_denied" && issue.message == PermissionDenied(path) && issue.forbiddenModule == None
       case BadSyntax(line) =>
         issue.code == "input_invalid" && issue.message == InvalidSyntax(path, line) && issue.forbiddenModule == None
       case Parsed(names) =>
         && issue.code == "boundary_violation" && issue.forbiddenModule.Some?
         && var m := issue.forbiddenModule.value;
            && issue.message == ForbiddenImport(rule.sourceModule, m, path)
            && m in rule.forbiddenImports
            && (m in names || (m in {"planner", "kernel", "fuji", "memory", "pipeline"}
                               && exists name :: name in names && m + "_" <= name))
  }

  lemma PathIssuesReport(snapshot: Snapshot, rule: Rule, path: string, issue: Issue)
    ensures issue in PathIssues(snapshot, rule)(path) <==> Reports(issue, rule, path, snapshot.read(path))
  {
    hide Breaches;
    if snapshot.read(path).Parsed? {
      var names := snapshot.read(path).moduleNames;
      InMap(BreachIssue(rule, path), Breaches(rule, names), issue);
      BreachesAreImports(rule, names);
    }
  }

  /** The collected issues are exactly the reports on the source files of the ruled modules. */
  lemma IssuesReport(snapshot: Snapshot, rules: seq<Rule>, issue: Issue)
    ensures issue in FlatMap(RuleIssues(snapshot), rules) <==>
            exists rule, path ::
              && rule in rules && path in SourcePaths(snapshot.layout(rule.sourceModule))
              && Reports(issue, rule, path, snapshot.read(path))
  {
    hide PathIssues, SourcePaths, Reports;
    InFlatMap(RuleIssues(snapshot), rules, issue);
    forall rule ensures issue in RuleIssues(snapshot)(rule) <==>
        exists path :: path in SourcePaths(snapshot.layout(rule.sourceModule))
                    && Reports(issue, rule, path, snapshot.read(path)) {
      InFlatMap(PathIssues(snapshot, rule), RulePaths(snapshot, rule), issue);
      forall path ensures issue in PathIssues(snapshot, rule)(path) <==>
          Reports(issue, rule, path, snapshot.read(path)) {
        PathIssuesReport(snapshot, rule, path, issue);
      }
    }
  }

  // ---------------------------------------------------------------- the collectors agree

  predicate IsViolationIssue(issue: Issue) { issue.code == "boundary_violation" }

  function ToViolation(issue: Issue): Violation {
    Violation(issue.sourceModule, if issue.forbiddenModule.Some? then issue.forbiddenModule.value else "", issue.path)
  }

  function MessageOf(issue: Issue): Message { issue.message }

  function ViolationsOf(issues: seq<Issue>): seq<Violation> { Map(ToViolation, Filter(IsViolationIssue, issues)) }

  lemma ViolationsOfAppend(a: seq<Issue>, b: seq<Issue>)
    ensures ViolationsOf(a + b) == ViolationsOf(a) + ViolationsOf(b)
  {
    FilterAppend(IsViolationIssue, a, b);
    MapAppend(ToViolation, Filter(IsViolationIssue, a), Filter(IsViolationIssue, b));
  }

  lemma {:induction false} BreachesAgree(rule: Rule, path: string, breaches: seq<string>)
    ensures ViolationsOf(Map(BreachIssue(rule, path), breaches)) == Map(BreachViolation(rule, path), breaches)
    ensures Map(MessageOf, Map(BreachIssue(rule, path), breaches)) == Map(BreachMessage(rule, path), breaches)
  {
    if breaches != [] { BreachesAgree(rule, path, breaches[1..]); }
  }

  lemma PathAgrees(snapshot: Snapshot, rule: Rule, path: string)
    ensures ViolationsOf(PathIssues(snapshot, rule)(path)) == PathViolations(snapshot, rule)(path)
    ensures Map(MessageOf, PathIssues(snapshot, rule)(path)) == PathMessages(snapshot, rule)(path)
  {
    hide Breaches;
    assert "input_invalid"[0] == 'i' && "permission_denied"[0] == 'p' && "boundary_violation"[0] == 'b';
    if snapshot.read(path).Parsed? {
      BreachesAgree(rule, path, Breaches(rule, snapshot.read(path).moduleNames));
    } else {
      FilterNone(IsViolationIssue, PathIssues(snapshot, rule)(path));
    }
  }

  lemma {:induction false} PathsAgree(snapshot: Snapshot, rule: Rule, paths: seq<string>)
    ensures ViolationsOf(FlatMap(PathIssues(snapshot, rule), paths)) == FlatMap(PathViolations(snapshot, rule), paths)
    ensures Map(MessageOf, FlatMap(PathIssues(snapshot, rule), paths)) == FlatMap(PathMessages(snapshot, rule), paths)
  {
    hide PathIssues, PathViolations, PathMessages, ViolationsOf;
    if paths == [] {
      NoViolations();
    } else {
      PathAgrees(snapshot, rule, paths[0]);
      PathsAgree(snapshot, rule, paths[1..]);
      var first, rest := PathIssues(snapshot, rule)(paths[0]), FlatMap(PathIssues(snapshot, rule), paths[1..]);
      ViolationsOfAppend(first, rest);
      MapAppend(MessageOf, first, rest);
    }
  }

  lemma NoViolations()
    ensures ViolationsOf([]) == []
  {
  }

  lemma {:induction false} RulesAgree(snapshot: Snapshot, rules: seq<Rule>)
    ensures ViolationsOf(FlatMap(RuleIssues(snapshot), rules)) == FlatMap(RuleViolations(snapshot), rules)
    ensures Map(MessageOf, FlatMap(RuleIssues(snapshot), rules)) == FlatMap(RuleMessages(snapshot), rules)
  {
    hide PathIssues, PathViolations, PathMessages, ViolationsOf, RulePaths;
    if rules == [] {
      NoViolations();
    } else {
      PathsAgree(snapshot, rules[0], RulePaths(snapshot, rules[0]));
      RulesAgree(snapshot, rules[1..]);
      var first, rest := RuleIssues(snapshot)(rules[0]), FlatMap(RuleIssues(snapshot), rules[1..]);
      ViolationsOfAppend(first, rest);
      MapAppend(MessageOf, first, rest);
    }
  }

  /** On one snapshot the violations collected for the remediation guide are, one to one and in order, the
      `boundary_violation` issues of the report, and the messages of the single-rule check are, rule by rule,
      the messages that follow the documentation issues. */
  lemma CollectorsAgree(snapshot: Snapshot, rules: seq<Rule>, guidance: seq<Issue>)
    requires forall issue :: issue in guidance ==> issue.code == "doc_alignment_error"
    ensures var issues := guidance + FlatMap(RuleIssues(snapshot), rules);
            && ViolationsOf(issues) == FlatMap(RuleViolations(snapshot), rules)
            && Map(MessageOf, issues[|guidance|..]) == FlatMap(RuleMessages(snapshot), rules)
  {
    var issues := FlatMap(RuleIssues(snapshot), rules);
    assert "doc_alignment_error"[0] == 'd' && "boundary_violation"[0] == 'b';
    FilterNone(IsViolationIssue, guidance);
    ViolationsOfAppend(guidance, issues);
    RulesAgree(snapshot, rules);
    assert (guidance + issues)[|guidance|..] == issues;
  }

  // ---------------------------------------------------------------- the machine report

  const REPORT_CODES: set<string> := {"boundary_violation", "input_invalid", "permission_denied", "doc_alignment_error"}

  function CodeOf(issue: Issue): string { issue.code }

  function CountCode(issues: seq<Issue>, code: string): nat {
    if issues == [] then 0
    else CountCode(issues[..|issues| - 1], code) + if issues[|issues| - 1].code == code then 1 else 0
  }

  /** The sum of the values of a dictionary. */
  ghost function Total(counts: map<string, nat>): nat
    decreases |counts.Keys|
  {
    if counts.Keys == {} then 0 else var k :| k in counts; counts[k] + Total(counts - {k})
  }

  lemma {:induction false} TotalWithout(counts: map<string, nat>, k: string)
    requires k in counts
    ensures Total(counts) == counts[k] + Total(counts - {k})
    decreases |counts.Keys|
  {
    var j :| j in counts && Total(counts) == counts[j] + Total(counts - {j});
    if j != k {
      TotalWithout(counts - {j}, k);
      TotalWithout(counts - {k}, j);
      assert counts - {j} - {k} == counts - {k} - {j};
    }
  }

  lemma {:induction false} TotalOfZeros(counts: map<string, nat>)
    requires forall k :: k in counts ==> counts[k] == 0
    ensures Total(counts) == 0
    decreases |counts.Keys|
  {
    if counts.Keys != {} {
      var k :| k in counts && Total(counts) == counts[k] + Total(counts - {k});
      TotalOfZeros(counts - {k});
    }
  }

  lemma TotalAfterIncrement(counts: map<string, nat>, code: string)
    ensures Total(counts[code := (if code in counts then counts[code] else 0) + 1]) == Total(counts) + 1
  {
    var after := counts[code := (if code in counts then counts[code] else 0) + 1];
    TotalWithout(after, code);
    assert after - {code} == counts - {code};
    if code in counts {
      TotalWithout(counts, code);
    } else {
      assert counts - {code} == counts;
    }
  }

  function ZeroCounts(): map<string, nat> { map code | code in REPORT_CODES :: 0 }

  lemma NothingCounted(issues: seq<Issue>)
    ensures ZeroCounts().Keys == REPORT_CODES + Keys(CodeOf, issues[..0])
    ensures forall code :: code in ZeroCounts() ==> ZeroCounts()[code] == CountCode(issues[..0], code)
    ensures Total(ZeroCounts()) == 0
  {
    TotalOfZeros(ZeroCounts());
    assert Keys(CodeOf, issues[..0]) == {};
  }

  /** The summary of `build_machine_report`: each code is counted exactly, and the counts add up to the issues. */
  method SummarizeIssues(issues: seq<Issue>) returns (failed: bool, counts: map<string, nat>)
    ensures failed <==> |issues| > 0
    ensures forall code :: code in counts <==>
        || code in {"boundary_violation", "input_invalid", "permission_denied", "doc_alignment_error"}
        || exists issue :: issue in issues && issue.code == code
    ensures forall code :: code in counts ==> counts[code] == CountCode(issues, code)
    ensures Total(counts) == |issues|
  {
    hide *;
    counts := ZeroCounts();
    NothingCounted(issues);
    var k := 0;
    while k < |issues|
      invariant 0 <= k <= |issues|
      invariant counts.Keys == REPORT_CODES + Keys(CodeOf, issues[..k])
      invariant forall code :: code in counts ==> counts[code] == CountCode(issues[..k], code)
      invariant Total(counts) == k
    {
      CountNext(issues, k);
      var code := issues[k].code;
      TotalAfterIncrement(counts, code);
      if code in counts {
        counts := counts[code := counts[code] + 1];
      } else {
        counts := counts[code := 0 + 1];
      }
      k := k + 1;
    }
    assert issues[..k] == issues;
    CodesOf(issues);
    failed := |issues| > 0;
  }

  lemma CodesOf(issues: seq<Issue>)
    ensures forall code :: code in REPORT_CODES <==>
        code in {"boundary_violation", "input_invalid", "permission_denied", "doc_alignment_error"}
    ensures forall code :: code in Keys(CodeOf, issues) <==> exists issue :: issue in issues && issue.code == code
  {
    KeysMembers(CodeOf, issues);
    assert forall issue :: CodeOf(issue) == issue.code;
    hide Keys;
  }

  lemma CountNext(issues: seq<Issue>, k: nat)
    requires k < |issues|
    ensures forall code :: CountCode(issues[..k + 1], code) ==
                           CountCode(issues[..k], code) + if issues[k].code == code then 1 else 0
    ensures Keys(CodeOf, issues[..k + 1]) == Keys(CodeOf, issues[..k]) + {issues[k].code}
    ensures issues[k].code !in Keys(CodeOf, issues[..k]) ==> CountCode(issues[..k], issues[k].code) == 0
  {
    assert issues[..k + 1][..k] == issues[..k];
    CountOfAbsent(issues[..k], issues[k].code);
  }

  lemma {:induction false} CountOfAbsent(issues: seq<Issue>, code: string)
    ensures code !in Keys(CodeOf, issues) ==> CountCode(issues, code) == 0
  {
    if issues != [] { CountOfAbsent(issues[..|issues| - 1], code); }
  }
}
