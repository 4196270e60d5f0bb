/**
 What the feature check accepts, said outright: it reports nothing exactly when every file is in order and every row
 of the annex is tagged once.
 */
module PackExact {
  import opened Text
  import opened Gherkin
  import opened Pack
  import opened PackValid
  import opened PackCheck
  import opened PackTheorems
  import opened PackText

  // ---- Sorted lists of identifiers -----------------------------------------------------------------

  lemma {:induction false} BeforeTotal(a: string, b: string)
    ensures Before(a, b) || Before(b, a)
    ensures Before(a, b) && Before(b, a) ==> a == b
  {
    if a != "" && b != "" && a[0] == b[0] {
      BeforeTotal(a[1..], b[1..]);
      assert a == [a[0]] + a[1..] && b == [b[0]] + b[1..];
    }
  }

  lemma {:induction false} BeforeTransitive(a: string, b: string, c: string)
    requires Before(a, b) && Before(b, c)
    ensures Before(a, c)
  {
    if a != "" && b != "" && c != "" && a[0] == b[0] == c[0] {
      BeforeTransitive(a[1..], b[1..], c[1..]);
    }
  }

  /** The order of two insertions does not matter. */
  lemma {:induction false} InsertedCommutes(x: string, y: string, s: seq<string>)
    requires Before(x, y)
    ensures Inserted(x, Inserted(y, s)) == Inserted(y, Inserted(x, s))
  {
    BeforeTotal(x, y);
    if s != [] {
      if Before(y, s[0]) {
        BeforeTransitive(x, y, s[0]);
      } else if !Before(x, s[0]) {
        InsertedCommutes(x, y, s[1..]);
      }
    }
  }

  lemma {:induction false} SortedWithout(s: seq<string>, i: nat)
    requires i < |s|
    ensures Sorted(s) == Inserted(s[i], Sorted(s[..i] + s[i + 1..]))
  {
    var rest := s[..i] + s[i + 1..];
    if i == 0 {
      assert rest == s[1..];
    } else {
      SortedWithout(s[1..], i - 1);
      assert s[1..][..i - 1] + s[1..][i..] == rest[1..] && rest[0] == s[0];
      BeforeTotal(s[0], s[i]);
      if Before(s[0], s[i]) {
        InsertedCommutes(s[0], s[i], Sorted(rest[1..]));
      } else {
        InsertedCommutes(s[i], s[0], Sorted(rest[1..]));
      }
    }
  }

  lemma {:induction false} InsertedKeeps(x: string, s: seq<string>)
    ensures multiset(Inserted(x, s)) == multiset{x} + multiset(s)
  {
    if s != [] && !Before(x, s[0]) {
      InsertedKeeps(x, s[1..]);
      assert s == [s[0]] + s[1..];
    }
  }

  lemma {:induction false} SortedKeeps(s: seq<string>)
    ensures multiset(Sorted(s)) == multiset(s)
  {
    if s != [] {
      SortedKeeps(s[1..]);
      InsertedKeeps(s[0], Sorted(s[1..]));
      assert s == [s[0]] + s[1..];
    }
  }

  lemma ItemsWithout(s: seq<string>, i: nat)
    requires i < |s|
    ensures multiset(s[..i] + s[i + 1..]) == multiset(s) - multiset{s[i]}
  {
    assert s == s[..i] + ([s[i]] + s[i + 1..]);
  }

  /** Sorting makes lists of the same items equal. */
  lemma {:induction false} SortedCanonical(s: seq<string>, t: seq<string>)
    ensures Sorted(s) == Sorted(t) <==> multiset(s) == multiset(t)
  {
    SortedKeeps(s);
    SortedKeeps(t);
    if multiset(s) == multiset(t) {
      SortedSame(s, t);
    }
  }

  lemma {:induction false} SortedSame(s: seq<string>, t: seq<string>)
    requires multiset(s) == multiset(t)
    ensures Sorted(s) == Sorted(t)
  {
    if s == [] {
      assert |multiset(t)| == |t|;
    } else {
      assert s[0] in multiset(t);
      var i :| 0 <= i < |t| && t[i] == s[0];
      RestSame(s, t, i);
      SortedSame(s[1..], t[..i] + t[i + 1..]);
      SortedWithout(t, i);
    }
  }

  lemma RestSame(s: seq<string>, t: seq<string>, i: nat)
    requires s != [] && i < |t| && t[i] == s[0] && multiset(s) == multiset(t)
    ensures multiset(s[1..]) == multiset(t[..i] + t[i + 1..])
  {
    ItemsWithout(t, i);
    ItemsWithout(s, 0);
    assert s[..0] + s[1..] == s[1..];
  }

  ghost predicate Words(ss: seq<string>)
  {
    forall i :: 0 <= i < |ss| ==> ss[i] != "" && ' ' !in ss[i]
  }

  /** Words joined by spaces are joined in one way. */
  lemma JoinedWords(s: seq<string>, t: seq<string>)
    requires Words(s) && Words(t)
    ensures Join(s, " ") == Join(t, " ") <==> s == t
  {
    if s != [] {
      SplitJoin(s, ' ');
    }
    if t != [] {
      SplitJoin(t, ' ');
    }
    if Join(s, " ") == Join(t, " ") && (s == [] || t == []) {
      JoinEmpty(s);
      JoinEmpty(t);
    }
  }

  lemma JoinEmpty(s: seq<string>)
    requires Words(s) && Join(s, " ") == ""
    ensures s == []
  {
  }

  lemma WordsAreItems(s: seq<string>, t: seq<string>)
    requires multiset(s) == multiset(t) && Words(s)
    ensures Words(t)
  {
    forall i | 0 <= i < |t|
      ensures t[i] in s
    {
      assert t[i] in multiset(t);
    }
  }

  lemma TestIdLikeIsWord(s: string)
    requires TestIdLike(s)
    ensures s != "" && ' ' !in s
  {
    assert ' ' !in "BDD-ZT-" && ' ' !in "BDD-TDR-" && ' ' !in "BDD-M7-";
    if Numbered(s, "BDD-ZT-") {
      NumberedNoSpace(s, "BDD-ZT-");
    } else if Numbered(s, "BDD-TDR-") {
      NumberedNoSpace(s, "BDD-TDR-");
    } else {
      NumberedNoSpace(s, "BDD-M7-");
    }
  }

  lemma NumberedNoSpace(s: string, prefix: string)
    requires Numbered(s, prefix) && ' ' !in prefix
    ensures ' ' !in s
  {
    assert s == prefix + s[|prefix|..];
  }

  lemma {:induction false} TestTagsAreWords(names: seq<string>)
    ensures Words(TestTags(names))
  {
    if names != [] {
      TestTagsAreWords(names[..|names| - 1]);
      if TestIdLike(names[|names| - 1]) {
        TestIdLikeIsWord(names[|names| - 1]);
      }
    }
  }

  /** Rows with identifiers that look like test identifiers. */
  ghost predicate Identified(rows: seq<Row>)
  {
    forall i :: 0 <= i < |rows| ==> TestIdLike(rows[i].testId)
  }

  /** The joined sorted lists are the same exactly if the test tags are those of the rows, each as often. */
  lemma SameTestIdsIff(names: seq<string>, rows: seq<Row>)
    requires Identified(rows)
    ensures SameTestIds(names, rows) <==> multiset(TestTags(names)) == multiset(TestIds(rows))
  {
    var want, got := TestIds(rows), TestTags(names);
    forall i | 0 <= i < |want|
      ensures want[i] != "" && ' ' !in want[i]
    {
      TestIdLikeIsWord(want[i]);
    }
    TestTagsAreWords(names);
    SortedKeeps(want);
    SortedKeeps(got);
    WordsAreItems(want, Sorted(want));
    WordsAreItems(got, Sorted(got));
    JoinedWords(Sorted(want), Sorted(got));
    SortedCanonical(want, got);
  }

  // ---- One scenario --------------------------------------------------------------------------------

  /** A row, test or pending tag: these belong on scenarios. */
  predicate Inner(t: string)
  {
    RowTagLike(t) || TestIdLike(t) || t == "pending"
  }

  predicate OuterOk(tags: seq<string>)
  {
    forall i :: 0 <= i < |Names(tags)| ==> !Inner(Names(tags)[i])
  }

  predicate ExampleOk(tags: seq<string>)
  {
    OuterOk(tags) && "cluster" !in Names(tags)
  }

  predicate ExamplesOk(examples: seq<seq<string>>)
  {
    forall i :: 0 <= i < |examples| ==> ExampleOk(examples[i])
  }

  ghost predicate TagsKnown(byId: map<string, Row>, names: seq<string>)
  {
    forall t :: t in names && RowTagLike(t) ==> t in byId
  }

  /** The scenario is tagged with the test identifiers of its rows, which are alike, and as their status and cluster
      flag say; it is in the rows' file. */
  ghost predicate TaggedAs(c: Layout, path: string, l: Located, rows: seq<Row>)
    requires rows != []
  {
    var names := Names(l.scenario.tags);
    && multiset(TestTags(names)) == multiset(TestIds(rows))
    && (forall i :: 0 <= i < |rows| ==> SharesScenario(rows[i], rows[0]))
    && ("pending" in names <==> rows[0].status == Pending)
    && ("cluster" in Names(l.inherited) + names <==> rows[0].cluster)
    && FeaturePath(c, rows[0].family, rows[0].runner) == path
  }

  /** The steps are the row's clauses, and the clauses are its statement. */
  ghost predicate Worded(steps: seq<Step>, r: Row)
  {
    steps == Steps(r) && Rebuilds(r)
  }

  /** A scenario tagged with rows is theirs; one without is not looked at further. */
  ghost predicate ScenarioOk(c: Layout, byId: map<string, Row>, path: string, l: Located)
  {
    var names := Names(l.scenario.tags);
    var rows := KnownRows(byId, names);
    && ExamplesOk(l.scenario.examples) && TagsKnown(byId, names)
    && (rows != [] ==> !l.background && TaggedAs(c, path, l, rows) && Worded(l.scenario.steps, rows[0]))
  }

  lemma {:induction false} OuterNamesIff(path: string, names: seq<string>, inner: string -> bool)
    requires forall t :: inner(t) <==> Inner(t)
    ensures OuterProblems(path, names) == [] <==> forall i :: 0 <= i < |names| ==> !inner(names[i])
  {
    if names != [] {
      var n := |names| - 1;
      OuterNamesIff(path, names[..n], inner);
      assert inner(names[n]) <==> Inner(names[n]);
    }
  }

  lemma OuterOkIff(path: string, tags: seq<string>)
    ensures OuterProblems(path, Names(tags)) == [] <==> OuterOk(tags)
  {
    OuterNamesIff(path, Names(tags), Inner);
  }

  function ExampleProblem(path: string, tags: seq<string>): seq<Problem>
  {
    OuterProblems(path, Names(tags)) + (if "cluster" in Names(tags) then [ClusterOnExamples(path)] else [])
  }

  lemma {:induction false} EachExample(path: string, examples: seq<seq<string>>, ok: seq<string> -> bool)
    requires forall tags {:trigger ok(tags)} :: ok(tags) <==> ExampleProblem(path, tags) == []
    ensures ExampleProblems(path, examples) == [] <==> forall i :: 0 <= i < |examples| ==> ok(examples[i])
  {
    if examples != [] {
      var n := |examples| - 1;
      EachExample(path, examples[..n], ok);
      ExamplesSnoc(path, examples[..n], examples[n]);
      assert examples[..n] + [examples[n]] == examples;
      assert ok(examples[n]) <==> ExampleProblem(path, examples[n]) == [];
    }
  }

  lemma ExamplesSnoc(path: string, examples: seq<seq<string>>, tags: seq<string>)
    ensures ExampleProblems(path, examples + [tags]) == [] <==> ExampleProblems(path, examples) == [] && ExampleProblem(path, tags) == []
  {
    assert (examples + [tags])[..|examples|] == examples;
  }

  lemma ExamplesOkIff(path: string, examples: seq<seq<string>>)
    ensures ExampleProblems(path, examples) == [] <==> ExamplesOk(examples)
  {
    forall tags: seq<string>
      ensures ExampleOk(tags) <==> ExampleProblem(path, tags) == []
    {
      OuterOkIff(path, tags);
    }
    EachExample(path, examples, ExampleOk);
  }

  lemma {:induction false} TagsKnownIff(path: string, byId: map<string, Row>, names: seq<string>)
    ensures UnknownRows(path, byId, names) == [] <==> TagsKnown(byId, names)
  {
    if names != [] {
      var n := |names| - 1;
      TagsKnownIff(path, byId, names[..n]);
      assert names == names[..n] + [names[n]];
    }
  }

  lemma {:induction false} AlikeIff(path: string, rows: seq<Row>)
    requires rows != []
    ensures DifferProblems(path, rows) == [] <==> forall i :: 0 <= i < |rows| ==> SharesScenario(rows[i], rows[0])
  {
    if |rows| > 1 {
      AlikeIff(path, rows[..|rows| - 1]);
    }
  }

  lemma WordedIff(path: string, steps: seq<Step>, r: Row)
    ensures BodyProblems(path, steps, r) == [] <==> Worded(steps, r)
  {
    if |steps| == 3 {
      assert StepProblems(path, steps, r, 0) == [];
      StepProblemsIff(path, steps, r, 3);
      assert Steps(r)[0].keyword == KEYWORDS[0] && Steps(r)[1].keyword == KEYWORDS[1] && Steps(r)[2].keyword == KEYWORDS[2];
      if forall i :: 0 <= i < 3 ==> steps[i] == Steps(r)[i] {
        assert steps == Steps(r);
      }
    }
  }

  lemma {:induction false} StepProblemsIff(path: string, steps: seq<Step>, r: Row, n: nat)
    requires n <= 3 == |steps|
    ensures StepProblems(path, steps, r, n) == [] <==> forall i :: 0 <= i < n ==> steps[i] == Steps(r)[i]
  {
    if n > 0 {
      StepProblemsIff(path, steps, r, n - 1);
      assert Steps(r)[n - 1] == Step(KEYWORDS[n - 1], Clauses(r)[n - 1], true);
    }
  }

  lemma {:induction false} KnownRowsIdentified(byId: map<string, Row>, names: seq<string>)
    requires forall id :: id in byId ==> TestIdLike(byId[id].testId)
    ensures Identified(KnownRows(byId, names))
  {
    if names != [] {
      KnownRowsIdentified(byId, names[..|names| - 1]);
    }
  }

  lemma ScenarioOkIff(c: Layout, byId: map<string, Row>, path: string, l: Located)
    requires forall id :: id in byId ==> TestIdLike(byId[id].testId)
    ensures ScenarioProblems(c, byId, path, l) == [] <==> ScenarioOk(c, byId, path, l)
  {
    var names := Names(l.scenario.tags);
    var rows := KnownRows(byId, names);
    ExamplesOkIff(path, l.scenario.examples);
    TagsKnownIff(path, byId, names);
    KnownRowsIdentified(byId, names);
    if rows != [] {
      RowScenarioIff(c, path, l, names, rows);
    }
  }

  lemma RowScenarioIff(c: Layout, path: string, l: Located, names: seq<string>, rows: seq<Row>)
    requires rows != [] && names == Names(l.scenario.tags) && Identified(rows)
    ensures RowProblems(c, path, l, names, rows) == [] <==>
              !l.background && TaggedAs(c, path, l, rows) && Worded(l.scenario.steps, rows[0])
  {
    SameTestIdsIff(names, rows);
    AlikeIff(path, rows);
    WordedIff(path, l.scenario.steps, rows[0]);
  }

  // ---- All files -----------------------------------------------------------------------------------

  predicate ChildOk(x: Child)
  {
    x.Rule? ==> OuterOk(x.tags)
  }

  ghost predicate FileOk(c: Layout, byId: map<string, Row>, f: File)
  {
    && !f.doc.Unparsable?
    && (f.doc.Feature? ==>
          && OuterOk(f.doc.tags) && (forall i :: 0 <= i < |f.doc.children| ==> ChildOk(f.doc.children[i]))
          && forall l :: l in LocatedIn(f) ==> ScenarioOk(c, byId, f.path, l))
  }

  /** Every file is in order, and in all of them together each row of the annex is tagged exactly once. */
  ghost predicate PackOk(c: Layout, a: Annex, files: seq<File>)
  {
    && (forall f :: f in files ==> FileOk(c, ById(a.rows), f))
    && forall i :: 0 <= i < |a.rows| ==> multiset(FilesFound(ById(a.rows), files))[a.rows[i].id] == 1
  }

  lemma {:induction false} EachChild(path: string, children: seq<Child>, ok: Child -> bool)
    requires forall x {:trigger ok(x)} :: ok(x) <==> (x.Rule? ==> OuterProblems(path, Names(x.tags)) == [])
    ensures RulesProblems(path, children) == [] <==> forall i :: 0 <= i < |children| ==> ok(children[i])
  {
    if children != [] {
      var n := |children| - 1;
      EachChild(path, children[..n], ok);
      ChildSnoc(path, children[..n], children[n]);
      assert children[..n] + [children[n]] == children;
      assert ok(children[n]) <==> (children[n].Rule? ==> OuterProblems(path, Names(children[n].tags)) == []);
    }
  }

  lemma ChildSnoc(path: string, children: seq<Child>, x: Child)
    ensures RulesProblems(path, children + [x]) == [] <==>
              RulesProblems(path, children) == [] && (x.Rule? ==> OuterProblems(path, Names(x.tags)) == [])
  {
    assert (children + [x])[..|children|] == children;
  }

  lemma ChildrenOkIff(path: string, children: seq<Child>)
    ensures RulesProblems(path, children) == [] <==> forall i :: 0 <= i < |children| ==> ChildOk(children[i])
  {
    forall x: Child
      ensures ChildOk(x) <==> (x.Rule? ==> OuterProblems(path, Names(x.tags)) == [])
    {
      if x.Rule? {
        OuterOkIff(path, x.tags);
      }
    }
    EachChild(path, children, ChildOk);
  }

  lemma {:induction false} EachScenario(c: Layout, byId: map<string, Row>, path: string, ls: seq<Located>, ok: Located -> bool)
    requires forall l {:trigger ok(l)} :: ok(l) <==> ScenarioProblems(c, byId, path, l) == []
    ensures ScenariosProblems(c, byId, path, ls) == [] <==> forall l :: l in ls ==> ok(l)
  {
    if ls != [] {
      var n := |ls| - 1;
      EachScenario(c, byId, path, ls[..n], ok);
      assert ls[..n] + [ls[n]] == ls;
      assert ok(ls[n]) <==> ScenarioProblems(c, byId, path, ls[n]) == [];
    }
  }

  lemma {:induction false} EachFile(c: Layout, byId: map<string, Row>, files: seq<File>, ok: File -> bool)
    requires forall f {:trigger ok(f)} :: ok(f) <==> FileProblems(c, byId, f) == []
    ensures FilesProblems(c, byId, files) == [] <==> forall f :: f in files ==> ok(f)
  {
    if files != [] {
      var n := |files| - 1;
      EachFile(c, byId, files[..n], ok);
      assert files[..n] + [files[n]] == files;
      assert ok(files[n]) <==> FileProblems(c, byId, files[n]) == [];
    }
  }

  lemma {:induction false} EachRow(rows: seq<Row>, found: multiset<string>)
    ensures CountProblems(rows, found) == [] <==> forall i :: 0 <= i < |rows| ==> found[rows[i].id] == 1
  {
    if rows != [] {
      EachRow(rows[..|rows| - 1], found);
    }
  }

  lemma FileOkIff(c: Layout, byId: map<string, Row>, f: File)
    requires forall id :: id in byId ==> TestIdLike(byId[id].testId)
    ensures FileProblems(c, byId, f) == [] <==> FileOk(c, byId, f)
  {
    if f.doc.Feature? {
      OuterOkIff(f.path, f.doc.tags);
      ChildrenOkIff(f.path, f.doc.children);
      LocatedOkIff(c, byId, f.path, LocatedIn(f));
    }
  }

  lemma LocatedOkIff(c: Layout, byId: map<string, Row>, path: string, ls: seq<Located>)
    requires forall id :: id in byId ==> TestIdLike(byId[id].testId)
    ensures ScenariosProblems(c, byId, path, ls) == [] <==> forall l :: l in ls ==> ScenarioOk(c, byId, path, l)
  {
    var ok := (l: Located) => ScenarioProblems(c, byId, path, l) == [];
    EachScenario(c, byId, path, ls, ok);
    forall l | l in ls
      ensures ScenarioOk(c, byId, path, l) <==> ok(l)
    {
      ScenarioOkIff(c, byId, path, l);
    }
  }

  lemma ByIdIdentified(c: Layout, rows: seq<Row>)
    requires RowsOk(c, rows) && IdsApart(rows)
    ensures forall id :: id in ById(rows) ==> TestIdLike(ById(rows)[id].testId)
  {
    ByIdHas(rows);
    forall id | id in ById(rows)
      ensures TestIdLike(ById(rows)[id].testId)
    {
      var i :| 0 <= i < |rows| && rows[i].id == id;
      TestIdReads(rows[i].testId);
    }
  }

  /** The feature check reports nothing exactly when the files are in order and each row is tagged once. */
  lemma ReportsNothingIff(c: Layout, a: Annex, files: seq<File>)
    requires Valid(c, a)
    ensures Problems(c, a, files) == [] <==> PackOk(c, a, files)
  {
    var byId := ById(a.rows);
    ByIdIdentified(c, a.rows);
    forall f: File
      ensures FileOk(c, byId, f) <==> FileProblems(c, byId, f) == []
    {
      FileOkIff(c, byId, f);
    }
    EachFile(c, byId, files, f => FileProblems(c, byId, f) == []);
    EachRow(a.rows, multiset(FilesFound(byId, files)));
  }

  /** When the feature check reports nothing, each row of the annex is tagged exactly once in all the files, and the
      scenario that carries its tag is the row word for word. */
  lemma CleanPackIsTheAnnex(c: Layout, a: Annex, files: seq<File>, i: nat) returns (k: nat, j: nat)
    requires Problems(c, a, files) == [] && IdsApart(a.rows) && i < |a.rows|
    ensures multiset(FilesFound(ById(a.rows), files))[a.rows[i].id] == 1
    ensures k < |files| && j < |LocatedIn(files[k])| && Carries(c, ById(a.rows), files[k].path, LocatedIn(files[k])[j], a.rows[i])
    ensures RowsOk(c, a.rows) ==> OwnTestIds(ById(a.rows), LocatedIn(files[k])[j])
  {
    var byId, id := ById(a.rows), a.rows[i].id;
    CountProblemsHave(a.rows, multiset(FilesFound(byId, files)), i);
    ByIdHas(a.rows);
    assert id in multiset(FilesFound(byId, files));
    k, j := FoundAt(byId, files, id);
    var l := LocatedIn(files[k])[j];
    CleanLocated(c, byId, files, k, j);
    CleanTagCarries(c, byId, files[k].path, l, a.rows[i]);
    if RowsOk(c, a.rows) {
      ByIdIdentified(c, a.rows);
      KnownRowsIdentified(byId, Names(l.scenario.tags));
      SameTestIdsIff(Names(l.scenario.tags), KnownRows(byId, Names(l.scenario.tags)));
    }
  }

  /** The test tags are the test identifiers of the tagged rows, each as often. */
  ghost predicate OwnTestIds(byId: map<string, Row>, l: Located)
  {
    var names := Names(l.scenario.tags);
    multiset(TestTags(names)) == multiset(TestIds(KnownRows(byId, names)))
  }
}
