/**
 The feature check: it holds every feature file, hand-written or generated, to the annex.
 */
module PackCheck {
  import opened Text
  import opened Gherkin
  import opened Pack
  import opened PackValid

  datatype Problem =
    | CannotParse(path: string)
    | OuterTag(path: string, tag: string)
    | ClusterOnExamples(path: string)
    | NotARow(path: string, tag: string)
    | FollowsBackground(path: string)
    | WrongTestIds(path: string)
    | RowsDiffer(path: string, id: string)
    | WrongPendingTag(path: string)
    | WrongClusterTag(path: string)
    | WrongFile(path: string, id: string)
    | WrongStepCount(path: string)
    | NotPlain(path: string, step: nat)
    | WrongStep(path: string, step: nat)
    | NotTheStatement(path: string, id: string)
    | NoScenario(id: string)
    | ManyScenarios(id: string, n: nat)

  /** A scenario with the tags it inherits and whether a background comes before it. */
  datatype Located = Located(scenario: Scenario, inherited: seq<string>, background: bool)

  function TagName(t: string): string
  {
    if HasPrefix(t, "@") then t[1..] else t
  }

  function Names(tags: seq<string>): seq<string>
  {
    seq(|tags|, i requires 0 <= i < |tags| => TagName(tags[i]))
  }

  // ---- What the feature check reports --------------------------------------------------------------------

  function OuterProblems(path: string, names: seq<string>): seq<Problem>
  {
    if names == [] then []
    else
      var t := names[|names| - 1];
      OuterProblems(path, names[..|names| - 1])
      + (if RowTagLike(t) || TestIdLike(t) || t == "pending" then [OuterTag(path, t)] else [])
  }

  function RulesProblems(path: string, children: seq<Child>): seq<Problem>
  {
    if children == [] then []
    else
      var x := children[|children| - 1];
      RulesProblems(path, children[..|children| - 1]) + (if x.Rule? then OuterProblems(path, Names(x.tags)) else [])
  }

  predicate HasBackground(children: seq<Child>)
  {
    exists i :: 0 <= i < |children| && children[i].Background?
  }

  predicate RuleHasBackground(children: seq<RuleChild>)
  {
    exists i :: 0 <= i < |children| && children[i].RuleBackground?
  }

  function PlacedInRule(tags: seq<string>, background: bool, children: seq<RuleChild>): seq<Located>
  {
    if children == [] then []
    else
      var x := children[|children| - 1];
      PlacedInRule(tags, background, children[..|children| - 1])
      + (if x.RuleScenario? then [Located(x.scenario, tags, background)] else [])
  }

  /** The scenarios of a feature, those of its rules included, in order. */
  function Placed(tags: seq<string>, background: bool, children: seq<Child>): seq<Located>
  {
    if children == [] then []
    else
      var x := children[|children| - 1];
      Placed(tags, background, children[..|children| - 1])
      + match x
        case FeatureScenario(s) => [Located(s, tags, background)]
        case Background => []
        case Rule(more, inner) => PlacedInRule(tags + more, background || RuleHasBackground(inner), inner)
  }

  function ById(rows: seq<Row>): map<string, Row>
  {
    if rows == [] then map[] else ById(rows[..|rows| - 1])[rows[|rows| - 1].id := rows[|rows| - 1]]
  }

  function UnknownRows(path: string, byId: map<string, Row>, names: seq<string>): seq<Problem>
  {
    if names == [] then []
    else
      var t := names[|names| - 1];
      UnknownRows(path, byId, names[..|names| - 1]) + (if RowTagLike(t) && t !in byId then [NotARow(path, t)] else [])
  }

  /** The rows a scenario is tagged with. */
  function KnownRows(byId: map<string, Row>, names: seq<string>): seq<Row>
  {
    if names == [] then []
    else
      var t := names[|names| - 1];
      KnownRows(byId, names[..|names| - 1]) + (if RowTagLike(t) && t in byId then [byId[t]] else [])
  }

  function KnownTags(byId: map<string, Row>, names: seq<string>): seq<string>
  {
    if names == [] then []
    else
      var t := names[|names| - 1];
      KnownTags(byId, names[..|names| - 1]) + (if RowTagLike(t) && t in byId then [t] else [])
  }

  function TestTags(names: seq<string>): seq<string>
  {
    if names == [] then []
    else
      var t := names[|names| - 1];
      TestTags(names[..|names| - 1]) + (if TestIdLike(t) then [t] else [])
  }

  predicate Before(a: string, b: string)
  {
    if a == [] then true
    else if b == [] then false
    else a[0] < b[0] || (a[0] == b[0] && Before(a[1..], b[1..]))
  }

  function Inserted(s: string, sorted: seq<string>): seq<string>
  {
    if sorted == [] || Before(s, sorted[0]) then [s] + sorted else [sorted[0]] + Inserted(s, sorted[1..])
  }

  function Sorted(ss: seq<string>): seq<string>
  {
    if ss == [] then [] else Inserted(ss[0], Sorted(ss[1..]))
  }

  predicate SameTestIds(names: seq<string>, rows: seq<Row>)
  {
    Join(Sorted(TestIds(rows)), " ") == Join(Sorted(TestTags(names)), " ")
  }

  predicate SharesScenario(r: Row, first: Row)
  {
    r.statement == first.statement && r.status == first.status && r.cluster == first.cluster
  }

  function DifferProblems(path: string, rows: seq<Row>): seq<Problem>
    requires rows != []
  {
    if |rows| == 1 then []
    else
      DifferProblems(path, rows[..|rows| - 1])
      + (if SharesScenario(rows[|rows| - 1], rows[0]) then [] else [RowsDiffer(path, rows[|rows| - 1].id)])
  }

  function ExampleProblems(path: string, examples: seq<seq<string>>): seq<Problem>
  {
    if examples == [] then []
    else
      var names := Names(examples[|examples| - 1]);
      ExampleProblems(path, examples[..|examples| - 1]) + OuterProblems(path, names)
      + (if "cluster" in names then [ClusterOnExamples(path)] else [])
  }

  const KEYWORDS: seq<string> := ["Given", "When", "Then"]

  /** The first n steps against the row's clauses. */
  function StepProblems(path: string, steps: seq<Step>, r: Row, n: nat): seq<Problem>
    requires n <= |steps| && n <= 3
  {
    if n == 0 then []
    else
      var st := steps[n - 1];
      StepProblems(path, steps, r, n - 1)
      + (if st.keyword == KEYWORDS[n - 1] && st.plain then [] else [NotPlain(path, n)])
      + (if st.text == Clauses(r)[n - 1] then [] else [WrongStep(path, n)])
  }

  function BodyProblems(path: string, steps: seq<Step>, r: Row): seq<Problem>
  {
    if |steps| != 3 then [WrongStepCount(path)]
    else
      StepProblems(path, steps, r, 3)
      + (if Rebuilt(steps[0].text, steps[1].text, steps[2].text) == r.statement then [] else [NotTheStatement(path, r.id)])
  }

  function TagProblems(path: string, l: Located, names: seq<string>, rows: seq<Row>): seq<Problem>
    requires rows != []
  {
    (if l.background then [FollowsBackground(path)] else [])
    + (if SameTestIds(names, rows) then [] else [WrongTestIds(path)])
    + DifferProblems(path, rows) + CommonTagProblems(path, Names(l.inherited), names, rows[0])
  }

  function CommonTagProblems(path: string, inherited: seq<string>, names: seq<string>, first: Row): seq<Problem>
  {
    (if ("pending" in names) == (first.status == Pending) then [] else [WrongPendingTag(path)])
    + (if ("cluster" in inherited + names) == first.cluster then [] else [WrongClusterTag(path)])
  }

  function RowProblems(c: Layout, path: string, l: Located, names: seq<string>, rows: seq<Row>): seq<Problem>
    requires rows != []
  {
    TagProblems(path, l, names, rows)
    + (if FeaturePath(c, rows[0].family, rows[0].runner) == path then [] else [WrongFile(path, rows[0].id)])
    + BodyProblems(path, l.scenario.steps, rows[0])
  }

  function ScenarioProblems(c: Layout, byId: map<string, Row>, path: string, l: Located): seq<Problem>
  {
    var names := Names(l.scenario.tags);
    var rows := KnownRows(byId, names);
    ExampleProblems(path, l.scenario.examples) + UnknownRows(path, byId, names)
    + (if rows == [] then [] else RowProblems(c, path, l, names, rows))
  }

  function ScenariosProblems(c: Layout, byId: map<string, Row>, path: string, ls: seq<Located>): seq<Problem>
  {
    if ls == [] then []
    else ScenariosProblems(c, byId, path, ls[..|ls| - 1]) + ScenarioProblems(c, byId, path, ls[|ls| - 1])
  }

  function ScenariosFound(byId: map<string, Row>, ls: seq<Located>): seq<string>
  {
    if ls == [] then []
    else ScenariosFound(byId, ls[..|ls| - 1]) + KnownTags(byId, Names(ls[|ls| - 1].scenario.tags))
  }

  function LocatedIn(f: File): seq<Located>
  {
    if f.doc.Feature? then Placed(f.doc.tags, HasBackground(f.doc.children), f.doc.children) else []
  }

  function FileProblems(c: Layout, byId: map<string, Row>, f: File): seq<Problem>
  {
    match f.doc
    case Unparsable => [CannotParse(f.path)]
    case NoFeature => []
    case Feature(tags, children) =>
      OuterProblems(f.path, Names(tags)) + RulesProblems(f.path, children) + ScenariosProblems(c, byId, f.path, LocatedIn(f))
  }

  function FilesProblems(c: Layout, byId: map<string, Row>, files: seq<File>): seq<Problem>
  {
    if files == [] then []
    else FilesProblems(c, byId, files[..|files| - 1]) + FileProblems(c, byId, files[|files| - 1])
  }

  /** Every row tag in the files that names a row, as often as it is there. */
  function FilesFound(byId: map<string, Row>, files: seq<File>): seq<string>
  {
    if files == [] then []
    else FilesFound(byId, files[..|files| - 1]) + ScenariosFound(byId, LocatedIn(files[|files| - 1]))
  }

  function CountProblem(id: string, n: nat): seq<Problem>
  {
    if n == 0 then [NoScenario(id)] else if n > 1 then [ManyScenarios(id, n)] else []
  }

  function CountProblems(rows: seq<Row>, found: multiset<string>): seq<Problem>
  {
    if rows == [] then []
    else CountProblems(rows[..|rows| - 1], found) + CountProblem(rows[|rows| - 1].id, found[rows[|rows| - 1].id])
  }

  function Problems(c: Layout, annex: Annex, files: seq<File>): seq<Problem>
  {
    var byId := ById(annex.rows);
    FilesProblems(c, byId, files) + CountProblems(annex.rows, multiset(FilesFound(byId, files)))
  }

  // ---- The feature check ---------------------------------------------------------------------------------

  function Count(found: map<string, nat>, id: string): nat
  {
    if id in found then found[id] else 0
  }

  method Verify(c: Layout, annex: Annex, files: seq<File>) returns (problems: seq<Problem>)
    ensures problems == Problems(c, annex, files)
  {
    var byId: map<string, Row> := map[];
    for i := 0 to |annex.rows|
      invariant byId == ById(annex.rows[..i])
    {
      assert annex.rows[..i + 1][..i] == annex.rows[..i];
      byId := byId[annex.rows[i].id := annex.rows[i]];
    }
    assert annex.rows[..|annex.rows|] == annex.rows;
    problems := [];
    var found: map<string, nat> := map[];
    for i := 0 to |files|
      invariant problems == FilesProblems(c, byId, files[..i])
      invariant forall id :: Count(found, id) == multiset(FilesFound(byId, files[..i]))[id]
    {
      assert files[..i + 1][..i] == files[..i];
      var more: seq<Problem>;
      more, found := VerifyFile(c, byId, files[i], found);
      problems := problems + more;
    }
    assert files[..|files|] == files;
    var counts := CheckCounts(annex.rows, found, multiset(FilesFound(byId, files)));
    problems := problems + counts;
  }

  method CheckCounts(rows: seq<Row>, found: map<string, nat>, ghost all: multiset<string>) returns (problems: seq<Problem>)
    requires forall id :: Count(found, id) == all[id]
    ensures problems == CountProblems(rows, all)
  {
    problems := [];
    for i := 0 to |rows|
      invariant problems == CountProblems(rows[..i], all)
    {
      assert rows[..i + 1][..i] == rows[..i];
      var n := Count(found, rows[i].id);
      if n == 0 {
        problems := problems + [NoScenario(rows[i].id)];
      } else if n > 1 {
        problems := problems + [ManyScenarios(rows[i].id, n)];
      }
    }
    assert rows[..|rows|] == rows;
  }

  method VerifyFile(c: Layout, byId: map<string, Row>, f: File, found: map<string, nat>)
    returns (problems: seq<Problem>, found': map<string, nat>)
    ensures problems == FileProblems(c, byId, f)
    ensures forall id :: Count(found', id) == Count(found, id) + multiset(ScenariosFound(byId, LocatedIn(f)))[id]
  {
    found' := found;
    match f.doc {
      case Unparsable => problems := [CannotParse(f.path)];
      case NoFeature => problems := [];
      case Feature(tags, children) =>
        problems := CheckOuterTags(f.path, tags);
        var all, ruleProblems := Collect(f.path, tags, children);
        problems := problems + ruleProblems;
        var more: seq<Problem>;
        more, found' := VerifyScenarios(c, byId, f.path, all, found);
        problems := problems + more;
    }
  }

  method VerifyScenarios(c: Layout, byId: map<string, Row>, path: string, all: seq<Located>, found: map<string, nat>)
    returns (problems: seq<Problem>, found': map<string, nat>)
    ensures problems == ScenariosProblems(c, byId, path, all)
    ensures forall id :: Count(found', id) == Count(found, id) + multiset(ScenariosFound(byId, all))[id]
  {
    problems, found' := [], found;
    for i := 0 to |all|
      invariant problems == ScenariosProblems(c, byId, path, all[..i])
      invariant forall id :: Count(found', id) == Count(found, id) + multiset(ScenariosFound(byId, all[..i]))[id]
    {
      assert all[..i + 1][..i] == all[..i];
      var more: seq<Problem>;
      more, found' := VerifyScenario(c, byId, path, all[i], found');
      problems := problems + more;
    }
    assert all[..|all|] == all;
  }

  /** Row, test and pending tags belong on scenarios only. */
  method CheckOuterTags(path: string, tags: seq<string>) returns (problems: seq<Problem>)
    ensures problems == OuterProblems(path, Names(tags))
  {
    problems := [];
    var names := Names(tags);
    for i := 0 to |names|
      invariant problems == OuterProblems(path, names[..i])
    {
      assert names[..i + 1][..i] == names[..i];
      if RowTagLike(names[i]) || TestIdLike(names[i]) || names[i] == "pending" {
        problems := problems + [OuterTag(path, names[i])];
      }
    }
    assert names[..|names|] == names;
  }

  /** All scenarios of a feature; a background applies to those of its feature, or of its rule only. */
  method Collect(path: string, tags: seq<string>, children: seq<Child>) returns (all: seq<Located>, problems: seq<Problem>)
    ensures all == Placed(tags, HasBackground(children), children)
    ensures problems == RulesProblems(path, children)
  {
    var background := false;
    for i := 0 to |children|
      invariant background == HasBackground(children[..i])
    {
      background := background || children[i].Background?;
      HasBackgroundSnoc(children, i);
    }
    assert children[..|children|] == children;
    all, problems := [], [];
    for i := 0 to |children|
      invariant all == Placed(tags, background, children[..i])
      invariant problems == RulesProblems(path, children[..i])
    {
      assert children[..i + 1][..i] == children[..i];
      match children[i] {
        case FeatureScenario(s) => all := all + [Located(s, tags, background)];
        case Background =>
        case Rule(more, inner) =>
          var outer := CheckOuterTags(path, more);
          problems := problems + outer;
          var placed := CollectRule(tags + more, background, inner);
          all := all + placed;
      }
    }
  }

  lemma HasBackgroundSnoc(children: seq<Child>, i: nat)
    requires i < |children|
    ensures HasBackground(children[..i + 1]) <==> HasBackground(children[..i]) || children[i].Background?
  {
    var p, q := children[..i], children[..i + 1];
    assert q[i] == children[i] && forall k :: 0 <= k < i ==> q[k] == p[k];
  }

  method CollectRule(tags: seq<string>, background: bool, children: seq<RuleChild>) returns (all: seq<Located>)
    ensures all == PlacedInRule(tags, background || RuleHasBackground(children), children)
  {
    var own := background;
    for i := 0 to |children|
      invariant own == (background || RuleHasBackground(children[..i]))
    {
      own := own || children[i].RuleBackground?;
      RuleHasBackgroundSnoc(children, i);
    }
    assert children[..|children|] == children;
    all := [];
    for i := 0 to |children|
      invariant all == PlacedInRule(tags, own, children[..i])
    {
      assert children[..i + 1][..i] == children[..i];
      if children[i].RuleScenario? {
        all := all + [Located(children[i].scenario, tags, own)];
      }
    }
  }

  lemma RuleHasBackgroundSnoc(children: seq<RuleChild>, i: nat)
    requires i < |children|
    ensures RuleHasBackground(children[..i + 1]) <==> RuleHasBackground(children[..i]) || children[i].RuleBackground?
  {
    var p, q := children[..i], children[..i + 1];
    assert q[i] == children[i] && forall k :: 0 <= k < i ==> q[k] == p[k];
  }

  method VerifyScenario(c: Layout, byId: map<string, Row>, path: string, l: Located, found: map<string, nat>)
    returns (problems: seq<Problem>, found': map<string, nat>)
    ensures problems == ScenarioProblems(c, byId, path, l)
    ensures forall id :: Count(found', id) == Count(found, id) + multiset(KnownTags(byId, Names(l.scenario.tags)))[id]
  {
    var names := Names(l.scenario.tags);
    problems := CheckExamples(path, l.scenario.examples);
    var rows: seq<Row>, unknown: seq<Problem>;
    rows, unknown, found' := FindRows(path, byId, names, found);
    problems := problems + unknown;
    if rows != [] {
      var more := CheckRowScenario(c, path, l, names, rows);
      problems := problems + more;
    }
  }

  method CheckRowScenario(c: Layout, path: string, l: Located, names: seq<string>, rows: seq<Row>) returns (problems: seq<Problem>)
    requires rows != []
    ensures problems == RowProblems(c, path, l, names, rows)
  {
    problems := CheckTags(path, l, names, rows);
    if FeaturePath(c, rows[0].family, rows[0].runner) != path {
      problems := problems + [WrongFile(path, rows[0].id)];
    }
    var body := CheckBody(path, l.scenario.steps, rows[0]);
    problems := problems + body;
  }

  method CheckExamples(path: string, examples: seq<seq<string>>) returns (problems: seq<Problem>)
    ensures problems == ExampleProblems(path, examples)
  {
    problems := [];
    for i := 0 to |examples|
      invariant problems == ExampleProblems(path, examples[..i])
    {
      assert examples[..i + 1][..i] == examples[..i];
      var outer := CheckOuterTags(path, examples[i]);
      problems := problems + outer;
      if "cluster" in Names(examples[i]) {
        problems := problems + [ClusterOnExamples(path)];
      }
    }
    assert examples[..|examples|] == examples;
  }

  method FindRows(path: string, byId: map<string, Row>, names: seq<string>, found: map<string, nat>)
    returns (rows: seq<Row>, problems: seq<Problem>, found': map<string, nat>)
    ensures rows == KnownRows(byId, names) && problems == UnknownRows(path, byId, names)
    ensures forall id :: Count(found', id) == Count(found, id) + multiset(KnownTags(byId, names))[id]
  {
    rows, problems, found' := [], [], found;
    for i := 0 to |names|
      invariant rows == KnownRows(byId, names[..i]) && problems == UnknownRows(path, byId, names[..i])
      invariant forall id :: Count(found', id) == Count(found, id) + multiset(KnownTags(byId, names[..i]))[id]
    {
      assert names[..i + 1][..i] == names[..i];
      var t := names[i];
      if RowTagLike(t) {
        if t !in byId {
          problems := problems + [NotARow(path, t)];
        } else {
          rows := rows + [byId[t]];
          found' := found'[t := Count(found', t) + 1];
        }
      }
    }
    assert names[..|names|] == names;
  }

  method CheckTags(path: string, l: Located, names: seq<string>, rows: seq<Row>) returns (problems: seq<Problem>)
    requires rows != []
    ensures problems == TagProblems(path, l, names, rows)
  {
    problems := [];
    if l.background {
      problems := problems + [FollowsBackground(path)];
    }
    var same := CompareTestIds(names, rows);
    if !same {
      problems := problems + [WrongTestIds(path)];
    }
    var differ := CheckDiffer(path, rows);
    problems := problems + differ;
    var common := CheckCommonTags(path, Names(l.inherited), names, rows[0]);
    problems := problems + common;
  }

  method CheckCommonTags(path: string, inherited: seq<string>, names: seq<string>, first: Row) returns (problems: seq<Problem>)
    ensures problems == CommonTagProblems(path, inherited, names, first)
  {
    problems := [];
    if ("pending" in names) != (first.status == Pending) {
      problems := problems + [WrongPendingTag(path)];
    }
    if ("cluster" in inherited + names) != first.cluster {
      problems := problems + [WrongClusterTag(path)];
    }
  }

  method CompareTestIds(names: seq<string>, rows: seq<Row>) returns (same: bool)
    ensures same == SameTestIds(names, rows)
  {
    var wantIds, gotIds := [], [];
    for i := 0 to |rows|
      invariant wantIds == TestIds(rows)[..i]
    {
      wantIds := wantIds + [rows[i].testId];
    }
    assert wantIds == TestIds(rows);
    for i := 0 to |names|
      invariant gotIds == TestTags(names[..i])
    {
      assert names[..i + 1][..i] == names[..i];
      if TestIdLike(names[i]) {
        gotIds := gotIds + [names[i]];
      }
    }
    assert names[..|names|] == names;
    same := Join(Sorted(wantIds), " ") == Join(Sorted(gotIds), " ");
  }

  method CheckDiffer(path: string, rows: seq<Row>) returns (problems: seq<Problem>)
    requires rows != []
    ensures problems == DifferProblems(path, rows)
  {
    problems := [];
    for i := 1 to |rows|
      invariant problems == DifferProblems(path, rows[..i])
    {
      assert rows[..i + 1][..i] == rows[..i];
      if !SharesScenario(rows[i], rows[0]) {
        problems := problems + [RowsDiffer(path, rows[i].id)];
      }
    }
    assert rows[..|rows|] == rows;
  }

  method CheckBody(path: string, steps: seq<Step>, r: Row) returns (problems: seq<Problem>)
    ensures problems == BodyProblems(path, steps, r)
  {
    if |steps| != 3 {
      return [WrongStepCount(path)];
    }
    problems := [];
    var want := Clauses(r);
    for i := 0 to 3
      invariant problems == StepProblems(path, steps, r, i)
    {
      if steps[i].keyword != KEYWORDS[i] || !steps[i].plain {
        problems := problems + [NotPlain(path, i + 1)];
      }
      if steps[i].text != want[i] {
        problems := problems + [WrongStep(path, i + 1)];
      }
    }
    if Rebuilt(steps[0].text, steps[1].text, steps[2].text) != r.statement {
      problems := problems + [NotTheStatement(path, r.id)];
    }
  }
}
