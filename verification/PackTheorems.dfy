/**
 The trees of the generated files satisfy the feature check, each row is in exactly one scenario, and what that check lets pass is
 the annex word for word.
 */
module PackTheorems {
  import opened Text
  import opened Grouping
  import opened Gherkin
  import opened Pack
  import opened PackValid
  import opened PackCheck

  // ---- Identifiers and tags ------------------------------------------------------------------------

  lemma RowTagStarts(s: string)
    requires RowTagLike(s)
    ensures s != [] && s[0] in {'Z', 'T', 'M'}
  {
  }

  lemma TestTagStarts(s: string)
    requires TestIdLike(s)
    ensures s != [] && s[0] == 'B'
  {
  }

  /** A valid row identifier reads as a row tag only, a valid test identifier as a test tag only. */
  lemma RowIdReads(s: string)
    requires RowId(s)
    ensures RowTagLike(s) && !TestIdLike(s) && s != "pending" && s != "cluster"
  {
    RowTagStarts(s);
    if TestIdLike(s) {
      TestTagStarts(s);
    }
  }

  lemma TestIdReads(s: string)
    requires TestId(s)
    ensures TestIdLike(s) && !RowTagLike(s) && s != "pending" && s != "cluster"
  {
    TestTagStarts(s);
    if RowTagLike(s) {
      RowTagStarts(s);
    }
  }

  lemma PlainTagReads(s: string)
    requires s == "pending" || s == "cluster"
    ensures !RowTagLike(s) && !TestIdLike(s)
  {
    if RowTagLike(s) {
      RowTagStarts(s);
    }
    if TestIdLike(s) {
      TestTagStarts(s);
    }
  }

  lemma TagNameOf(s: string)
    ensures TagName("@" + s) == s
  {
    assert ("@" + s)[1..] == s;
  }

  lemma NamesAppend(a: seq<string>, b: seq<string>)
    ensures Names(a + b) == Names(a) + Names(b)
  {
  }

  /** What the feature check reads from a list of tag names. */
  ghost predicate Reads(byId: map<string, Row>, names: seq<string>, path: string, rows: seq<Row>, plain: set<string>)
  {
    && KnownRows(byId, names) == rows && KnownTags(byId, names) == RowIds(rows) && TestTags(names) == TestIds(rows)
    && UnknownRows(path, byId, names) == []
    && (forall t :: t in {"pending", "cluster"} ==> (t in names <==> t in plain))
  }

  function RowIds(s: seq<Row>): seq<string>
  {
    seq(|s|, i requires 0 <= i < |s| => s[i].id)
  }

  lemma ReadsSnoc(byId: map<string, Row>, names: seq<string>, path: string, x: string)
    ensures var known := RowTagLike(x) && x in byId;
            && KnownRows(byId, names + [x]) == KnownRows(byId, names) + (if known then [byId[x]] else [])
            && KnownTags(byId, names + [x]) == KnownTags(byId, names) + (if known then [x] else [])
    ensures TestTags(names + [x]) == TestTags(names) + (if TestIdLike(x) then [x] else [])
    ensures UnknownRows(path, byId, names + [x]) == UnknownRows(path, byId, names) + (if RowTagLike(x) && x !in byId then [NotARow(path, x)] else [])
  {
    assert (names + [x])[..|names|] == names;
  }

  /** A row tag and then a test tag. */
  lemma ReadsTwo(byId: map<string, Row>, names: seq<string>, path: string, id: string, testId: string)
    requires RowTagLike(id) && !TestIdLike(id) && id in byId && TestIdLike(testId) && !RowTagLike(testId)
    ensures var more := names + [id, testId];
            && KnownRows(byId, more) == KnownRows(byId, names) + [byId[id]] && KnownTags(byId, more) == KnownTags(byId, names) + [id]
            && TestTags(more) == TestTags(names) + [testId] && UnknownRows(path, byId, more) == UnknownRows(path, byId, names)
  {
    ReadsSnoc(byId, names, path, id);
    ReadsSnoc(byId, names + [id], path, testId);
    assert names + [id, testId] == names + [id] + [testId];
  }

  lemma ReadsRow(byId: map<string, Row>, names: seq<string>, path: string, rows: seq<Row>, plain: set<string>, r: Row)
    requires Reads(byId, names, path, rows, plain) && Tagged(byId, r)
    ensures Reads(byId, names + [r.id, r.testId], path, rows + [r], plain)
  {
    RowIdReads(r.id);
    TestIdReads(r.testId);
    ReadsTwo(byId, names, path, r.id, r.testId);
    ReadsMore(byId, names, path, rows, plain, r);
  }

  lemma ReadsMore(byId: map<string, Row>, names: seq<string>, path: string, rows: seq<Row>, plain: set<string>, r: Row)
    requires Reads(byId, names, path, rows, plain) && r.id !in {"pending", "cluster"} && r.testId !in {"pending", "cluster"}
    requires var more := names + [r.id, r.testId];
             && KnownRows(byId, more) == KnownRows(byId, names) + [r] && KnownTags(byId, more) == KnownTags(byId, names) + [r.id]
             && TestTags(more) == TestTags(names) + [r.testId] && UnknownRows(path, byId, more) == UnknownRows(path, byId, names)
    ensures Reads(byId, names + [r.id, r.testId], path, rows + [r], plain)
  {
    assert RowIds(rows + [r]) == RowIds(rows) + [r.id] && TestIds(rows + [r]) == TestIds(rows) + [r.testId];
  }

  lemma ReadsPlain(byId: map<string, Row>, names: seq<string>, path: string, rows: seq<Row>, plain: set<string>, t: string)
    requires Reads(byId, names, path, rows, plain) && (t == "pending" || t == "cluster")
    ensures Reads(byId, names + [t], path, rows, plain + {t})
  {
    ReadsSnoc(byId, names, path, t);
    PlainTagReads(t);
  }

  /** The row's identifiers are valid and the annex has the row under its own. */
  predicate Tagged(byId: map<string, Row>, r: Row)
  {
    RowId(r.id) && TestId(r.testId) && r.id in byId && byId[r.id] == r
  }

  /** The rows are the annex's own, and valid. */
  ghost predicate Own(byId: map<string, Row>, s: seq<Row>)
  {
    forall i :: 0 <= i < |s| ==> Tagged(byId, s[i]) && Rebuilds(s[i]) && s[i].runner != OtherRunner
  }

  lemma RowNames(tags: seq<string>, r: Row)
    ensures Names(tags + ["@" + r.id, "@" + r.testId]) == Names(tags) + [r.id, r.testId]
  {
    TagNameOf(r.id);
    TagNameOf(r.testId);
    NamesAppend(tags, ["@" + r.id, "@" + r.testId]);
    assert Names(["@" + r.id, "@" + r.testId]) == [r.id, r.testId];
  }

  ghost predicate AllTagged(byId: map<string, Row>, s: seq<Row>)
  {
    forall i :: 0 <= i < |s| ==> Tagged(byId, s[i])
  }

  lemma {:induction false} RowTagsRead(byId: map<string, Row>, path: string, s: seq<Row>)
    requires AllTagged(byId, s)
    ensures Reads(byId, Names(RowTags(s)), path, s, {})
  {
    if s == [] {
      NothingRead(byId, path);
    } else {
      var p, r := s[..|s| - 1], s[|s| - 1];
      assert s == p + [r];
      RowTagsRead(byId, path, p);
      OneRowRead(byId, RowTags(p), path, p, r);
      assert RowTags(s) == RowTags(p) + ["@" + r.id, "@" + r.testId];
    }
  }

  lemma NothingRead(byId: map<string, Row>, path: string)
    ensures Reads(byId, Names(RowTags([])), path, [], {})
  {
    assert RowTags([]) == [] && Names([]) == [];
  }

  lemma OneRowRead(byId: map<string, Row>, tags: seq<string>, path: string, rows: seq<Row>, r: Row)
    requires Reads(byId, Names(tags), path, rows, {}) && Tagged(byId, r)
    ensures Reads(byId, Names(tags + ["@" + r.id, "@" + r.testId]), path, rows + [r], {})
  {
    RowNames(tags, r);
    ReadsRow(byId, Names(tags), path, rows, {}, r);
  }

  function PlainTags(r: Row): set<string>
  {
    (if r.status == Pending then {"pending"} else {}) + (if r.cluster then {"cluster"} else {})
  }

  lemma PlainTagRead(byId: map<string, Row>, tags: seq<string>, path: string, rows: seq<Row>, plain: set<string>, on: bool, t: string)
    requires Reads(byId, Names(tags), path, rows, plain) && (t == "pending" || t == "cluster")
    ensures Reads(byId, Names(tags + if on then ["@" + t] else []), path, rows, plain + if on then {t} else {})
  {
    if on {
      NamesAppend(tags, ["@" + t]);
      TagNameOf(t);
      assert Names(["@" + t]) == [t];
      ReadsPlain(byId, Names(tags), path, rows, plain, t);
    } else {
      assert tags + [] == tags && plain + {} == plain;
    }
  }

  lemma TagsAre(s: seq<Row>)
    requires s != []
    ensures Tags(s) == RowTags(s) + (if s[0].status == Pending then ["@" + "pending"] else []) + (if s[0].cluster then ["@" + "cluster"] else [])
  {
    assert "@" + "pending" == "@pending" && "@" + "cluster" == "@cluster";
  }

  /** The feature check reads back the scenario's rows, each test identifier and what the rows have in common. */
  lemma TagsRead(byId: map<string, Row>, path: string, s: seq<Row>)
    requires s != [] && Own(byId, s)
    ensures Reads(byId, Names(Tags(s)), path, s, PlainTags(s[0]))
  {
    TagsAre(s);
    RowTagsRead(byId, path, s);
    CommonTagsRead(byId, RowTags(s), path, s, s[0].status == Pending, s[0].cluster);
  }

  lemma CommonTagsRead(byId: map<string, Row>, tags: seq<string>, path: string, rows: seq<Row>, pending: bool, cluster: bool)
    requires Reads(byId, Names(tags), path, rows, {})
    ensures Reads(byId, Names(tags + (if pending then ["@" + "pending"] else []) + (if cluster then ["@" + "cluster"] else [])), path, rows,
                  (if pending then {"pending"} else {}) + (if cluster then {"cluster"} else {}))
  {
    PlainTagRead(byId, tags, path, rows, {}, pending, "pending");
    var more := {} + (if pending then {"pending"} else {});
    assert more == if pending then {"pending"} else {};
    PlainTagRead(byId, tags + (if pending then ["@" + "pending"] else []), path, rows, more, cluster, "cluster");
  }

  // ---- A generated scenario is clean -----------------------------------------------------------------

  function Generate(s: seq<Row>): Located
    requires s != []
  {
    Located(RenderedScenario(s), [], false)
  }

  ghost predicate SharedAgrees(s: seq<Row>)
  {
    s != [] && forall i :: 1 <= i < |s| ==> Agrees(s[i], s[0])
  }

  lemma {:induction false} AgreeingClean(path: string, s: seq<Row>)
    requires SharedAgrees(s)
    ensures DifferProblems(path, s) == []
  {
    if |s| > 1 {
      AgreeingClean(path, s[..|s| - 1]);
    }
  }

  lemma BodyClean(path: string, r: Row)
    requires Rebuilds(r)
    ensures BodyProblems(path, RenderedScenario([r]).steps, r) == []
  {
    var steps := RenderedScenario([r]).steps;
    assert StepProblems(path, steps, r, 1) == [];
    assert StepProblems(path, steps, r, 2) == [];
  }

  lemma ScenarioClean(c: Layout, byId: map<string, Row>, path: string, s: seq<Row>)
    requires SharedOk(s) && Own(byId, s) && path == FeaturePath(c, s[0].family, s[0].runner)
    ensures ScenarioProblems(c, byId, path, Generate(s)) == []
    ensures KnownTags(byId, Names(Generate(s).scenario.tags)) == RowIds(s)
  {
    TagsRead(byId, path, s);
    AgreeingClean(path, s);
    BodyClean(path, s[0]);
    TagsClean(c, byId, path, s);
  }

  lemma TagsClean(c: Layout, byId: map<string, Row>, path: string, s: seq<Row>)
    requires s != [] && Reads(byId, Names(Tags(s)), path, s, PlainTags(s[0])) && DifferProblems(path, s) == []
    ensures TagProblems(path, Generate(s), Names(Tags(s)), s) == []
  {
    ReadTagsClean(path, Generate(s), Names(Tags(s)), s);
  }

  lemma ReadTagsClean(path: string, l: Located, names: seq<string>, rows: seq<Row>)
    requires rows != [] && !l.background && l.inherited == [] && TestTags(names) == TestIds(rows) && DifferProblems(path, rows) == []
    requires "pending" in names <==> rows[0].status == Pending
    requires "cluster" in names <==> rows[0].cluster
    ensures TagProblems(path, l, names, rows) == []
  {
    assert Names([]) + names == names;
  }

  // ---- A generated file is clean ---------------------------------------------------------------------

  ghost predicate GroupsGood(c: Layout, byId: map<string, Row>, ss: seq<seq<Row>>, path: string)
  {
    forall i :: 0 <= i < |ss| ==> ss[i] != [] && SharedOk(ss[i]) && Own(byId, ss[i]) && path == FeaturePath(c, ss[i][0].family, ss[i][0].runner)
  }

  /** Scenarios directly in a feature without tags and without a background. */
  function Standing(xs: seq<Scenario>): seq<Located>
  {
    if xs == [] then [] else Standing(xs[..|xs| - 1]) + [Located(xs[|xs| - 1], [], false)]
  }

  lemma {:induction false} PlacedChildren(path: string, xs: seq<Scenario>)
    ensures Placed([], false, AsChildren(xs)) == Standing(xs) && RulesProblems(path, AsChildren(xs)) == []
  {
    if xs != [] {
      var n := |xs| - 1;
      PlacedChildren(path, xs[..n]);
      ChildrenSnoc(xs[..n], xs[n]);
      PlacedSnoc(path, AsChildren(xs[..n]), xs[n]);
      assert xs[..n] + [xs[n]] == xs;
    }
  }

  lemma StandingSnoc(xs: seq<Scenario>, x: Scenario)
    ensures Standing(xs + [x]) == Standing(xs) + [Located(x, [], false)]
  {
    assert (xs + [x])[..|xs|] == xs;
  }

  lemma ChildrenSnoc(xs: seq<Scenario>, x: Scenario)
    ensures AsChildren(xs + [x]) == AsChildren(xs) + [FeatureScenario(x)]
  {
  }

  lemma PlacedSnoc(path: string, children: seq<Child>, s: Scenario)
    ensures Placed([], false, children + [FeatureScenario(s)]) == Placed([], false, children) + [Located(s, [], false)]
    ensures RulesProblems(path, children + [FeatureScenario(s)]) == RulesProblems(path, children)
  {
    assert (children + [FeatureScenario(s)])[..|children|] == children;
  }

  lemma ScenariosSnoc(c: Layout, byId: map<string, Row>, path: string, ls: seq<Located>, l: Located)
    ensures ScenariosProblems(c, byId, path, ls + [l]) == ScenariosProblems(c, byId, path, ls) + ScenarioProblems(c, byId, path, l)
    ensures ScenariosFound(byId, ls + [l]) == ScenariosFound(byId, ls) + KnownTags(byId, Names(l.scenario.tags))
  {
    assert (ls + [l])[..|ls|] == ls;
  }

  lemma RowIdsAppend(a: seq<Row>, b: seq<Row>)
    ensures RowIds(a + b) == RowIds(a) + RowIds(b)
  {
  }

  lemma {:induction false} ScenariosClean(c: Layout, byId: map<string, Row>, path: string, ss: seq<seq<Row>>)
    requires GroupsGood(c, byId, ss, path)
    ensures ScenariosProblems(c, byId, path, Standing(RenderedScenarios(ss))) == [] && ScenariosFound(byId, Standing(RenderedScenarios(ss))) == RowIds(Flat(ss))
  {
    if ss != [] {
      var n := |ss| - 1;
      ScenariosClean(c, byId, path, ss[..n]);
      ScenarioClean(c, byId, path, ss[n]);
      StandingSnoc(RenderedScenarios(ss[..n]), RenderedScenario(ss[n]));
      ScenariosSnoc(c, byId, path, Standing(RenderedScenarios(ss[..n])), Generate(ss[n]));
      RowIdsAppend(Flat(ss[..n]), ss[n]);
    }
  }

  lemma FileClean(c: Layout, byId: map<string, Row>, ss: seq<seq<Row>>)
    requires FamilyGroup(ss) && GroupsGood(c, byId, ss, RenderedFile(c, ss).path)
    ensures FileProblems(c, byId, RenderedFile(c, ss)) == []
    ensures ScenariosFound(byId, LocatedIn(RenderedFile(c, ss))) == RowIds(Flat(ss))
  {
    FileLocates(c, ss);
    PlacedChildren(RenderedFile(c, ss).path, RenderedScenarios(ss));
    ScenariosClean(c, byId, RenderedFile(c, ss).path, ss);
    FileParts(c, byId, RenderedFile(c, ss));
  }

  lemma FileLocates(c: Layout, ss: seq<seq<Row>>)
    requires FamilyGroup(ss)
    ensures LocatedIn(RenderedFile(c, ss)) == Standing(RenderedScenarios(ss))
  {
    PlacedChildren("", RenderedScenarios(ss));
    assert !HasBackground(AsChildren(RenderedScenarios(ss)));
  }

  lemma FileParts(c: Layout, byId: map<string, Row>, f: File)
    requires f.doc.Feature? && f.doc.tags == [] && RulesProblems(f.path, f.doc.children) == []
    ensures FileProblems(c, byId, f) == ScenariosProblems(c, byId, f.path, LocatedIn(f))
  {
    assert Names([]) == [];
  }

  // ---- All generated files ---------------------------------------------------------------------------

  /** The identifier of a row whose family is generated. */
  function KeptId(c: Layout, r: Row): seq<string>
  {
    if r.family in c.handWritten then [] else [r.id]
  }

  /** Every scenario of the group is of the group's family. */
  ghost predicate OneFamily(ss: seq<seq<Row>>)
  {
    FamilyGroup(ss) && forall i, k :: 0 <= i < |ss| && 0 <= k < |ss[i]| ==> ss[i][k].family == ss[0][0].family
  }

  ghost predicate FamilyGood(c: Layout, byId: map<string, Row>, ss: seq<seq<Row>>)
  {
    OneFamily(ss) && GroupsGood(c, byId, ss, RenderedFile(c, ss).path)
  }

  lemma {:induction false} KeptIds(c: Layout, rows: seq<Row>, f: Row -> seq<string>)
    requires forall r :: f(r) == KeptId(c, r)
    requires forall i, k :: 0 <= i < |rows| && 0 <= k < |rows| ==> rows[i].family == rows[k].family
    ensures FlatMap(rows, f) == if rows == [] || rows[0].family in c.handWritten then [] else RowIds(rows)
  {
    if rows != [] {
      var n := |rows| - 1;
      KeptIds(c, rows[..n], f);
      assert RowIds(rows) == RowIds(rows[..n]) + [rows[n].id];
    }
  }

  lemma FamilyKeptIds(c: Layout, ss: seq<seq<Row>>, f: Row -> seq<string>)
    requires OneFamily(ss) && forall r :: f(r) == KeptId(c, r)
    ensures FlatMap(Flat(ss), f) == if ss[0][0].family in c.handWritten then [] else RowIds(Flat(ss))
  {
    var rows := Flat(ss);
    forall k | 0 <= k < |rows|
      ensures rows[k].family == ss[0][0].family
    {
      InFlat(ss, rows[k]);
    }
    KeptIds(c, rows, f);
    if rows == [] {
      InFlat(ss, ss[0][0]);
    }
  }

  /** What is found in the generated files are the identifiers of the rows of generated families. */
  lemma {:induction false} RenderedFound(c: Layout, byId: map<string, Row>, fs: seq<seq<seq<Row>>>, f: Row -> seq<string>)
    requires forall r :: f(r) == KeptId(c, r)
    requires forall i :: 0 <= i < |fs| ==> FamilyGood(c, byId, fs[i])
    ensures FilesFound(byId, RenderedFiles(c, fs)) == FlatMap(Flat(Flat(fs)), f)
  {
    if fs != [] {
      var n := |fs| - 1;
      RenderedFound(c, byId, fs[..n], f);
      FlatAppend(Flat(fs[..n]), fs[n]);
      FlatMapAppend(Flat(Flat(fs[..n])), Flat(fs[n]), f);
      FamilyKeptIds(c, fs[n], f);
      if Generated(c, fs[n]) {
        FileFound(c, byId, fs[n]);
        FilesFoundSnoc(byId, RenderedFiles(c, fs[..n]), RenderedFile(c, fs[n]));
      } else {
        assert RenderedFiles(c, fs) == RenderedFiles(c, fs[..n]);
      }
    }
  }

  lemma FileFound(c: Layout, byId: map<string, Row>, ss: seq<seq<Row>>)
    requires FamilyGood(c, byId, ss)
    ensures ScenariosFound(byId, LocatedIn(RenderedFile(c, ss))) == RowIds(Flat(ss))
  {
    FileClean(c, byId, ss);
  }

  lemma FilesFoundSnoc(byId: map<string, Row>, files: seq<File>, f: File)
    ensures FilesFound(byId, files + [f]) == FilesFound(byId, files) + ScenariosFound(byId, LocatedIn(f))
  {
    assert (files + [f])[..|files|] == files;
  }

  lemma {:induction false} RenderedClean(c: Layout, byId: map<string, Row>, fs: seq<seq<seq<Row>>>, f: File)
    requires (forall i :: 0 <= i < |fs| ==> FamilyGood(c, byId, fs[i])) && f in RenderedFiles(c, fs)
    ensures FileProblems(c, byId, f) == []
  {
    var n := |fs| - 1;
    if f in RenderedFiles(c, fs[..n]) {
      RenderedClean(c, byId, fs[..n], f);
    } else {
      assert f == RenderedFile(c, fs[n]);
      FileClean(c, byId, fs[n]);
    }
  }

  lemma {:induction false} CleanFiles(c: Layout, byId: map<string, Row>, files: seq<File>)
    requires forall f :: f in files ==> FileProblems(c, byId, f) == []
    ensures FilesProblems(c, byId, files) == []
  {
    if files != [] {
      CleanFiles(c, byId, files[..|files| - 1]);
      assert files[|files| - 1] in files;
    }
  }

  /** What is found does not depend on the order of the files. */
  lemma FoundPermutes(byId: map<string, Row>, files: seq<File>, others: seq<File>)
    requires multiset(files) == multiset(others)
    ensures multiset(FilesFound(byId, files)) == multiset(FilesFound(byId, others))
  {
    var f := (x: File) => ScenariosFound(byId, LocatedIn(x));
    FoundIsFlatMap(byId, files, f);
    FoundIsFlatMap(byId, others, f);
    FlatMapPermutes(files, others, f);
  }

  lemma {:induction false} FoundIsFlatMap(byId: map<string, Row>, files: seq<File>, f: File -> seq<string>)
    requires forall x :: f(x) == ScenariosFound(byId, LocatedIn(x))
    ensures FilesFound(byId, files) == FlatMap(files, f)
  {
    if files != [] {
      FoundIsFlatMap(byId, files[..|files| - 1], f);
    }
  }

  // ---- The theorems ------------------------------------------------------------------------------

  lemma {:induction false} ByIdHas(rows: seq<Row>)
    requires IdsApart(rows)
    ensures forall i :: 0 <= i < |rows| ==> rows[i].id in ById(rows) && ById(rows)[rows[i].id] == rows[i]
    ensures forall id :: id in ById(rows) ==> exists i :: 0 <= i < |rows| && rows[i].id == id
  {
    if rows != [] {
      ByIdHas(rows[..|rows| - 1]);
    }
  }

  /** Items of a grouping are items of the list. */
  lemma GroupedFrom<T>(xs: seq<T>, key: T -> Option<string>, i: nat, k: nat)
    requires i < |Grouped(xs, key)| && k < |Grouped(xs, key)[i]|
    ensures Grouped(xs, key)[i][k] in xs
  {
    var x := Grouped(xs, key)[i][k];
    InFlat(Grouped(xs, key), x);
    GroupedPartitions(xs, key);
    assert x in multiset(Flat(Grouped(xs, key)));
  }

  lemma ScenariosOwn(c: Layout, rows: seq<Row>, s: seq<Row>)
    requires RowsOk(c, rows) && IdsApart(rows) && s in Scenarios(rows)
    ensures Own(ById(rows), s) && forall k :: 0 <= k < |s| ==> s[k] in rows
  {
    ByIdHas(rows);
    var i :| 0 <= i < |Scenarios(rows)| && Scenarios(rows)[i] == s;
    forall k | 0 <= k < |s|
      ensures s[k] in rows
    {
      GroupedFrom(rows, ShareKey, i, k);
    }
  }

  lemma FamiliesGood(c: Layout, a: Annex, j: nat)
    requires Valid(c, a) && j < |ByFamily(a.rows)|
    ensures FamilyGood(c, ById(a.rows), ByFamily(a.rows)[j])
  {
    var ss := ByFamily(a.rows)[j];
    GroupedOk(Scenarios(a.rows), Family);
    assert GroupOk(ss, Family);
    forall i | 0 <= i < |ss|
      ensures ss[i] != [] && SharedOk(ss[i]) && Own(ById(a.rows), ss[i]) && ss[i][0] in a.rows
    {
      GroupedFrom(Scenarios(a.rows), Family, j, i);
      ScenariosOwn(c, a.rows, ss[i]);
    }
    FamilyFits(c, a.rows, ss);
  }

  lemma FamilyFits(c: Layout, rows: seq<Row>, ss: seq<seq<Row>>)
    requires OneRunner(rows) && GroupOk(ss, Family)
    requires forall i :: 0 <= i < |ss| ==> ss[i] != [] && SharedOk(ss[i]) && Own(ById(rows), ss[i]) && ss[i][0] in rows
    ensures FamilyGood(c, ById(rows), ss)
  {
    forall i | 0 <= i < |ss|
      ensures ss[i][0].family == ss[0][0].family && ss[i][0].runner == ss[0][0].runner
    {
      assert Family(ss[i]) == Family(ss[0]);
      assert ss[i][0] in rows && ss[0][0] in rows;
      SameRunner(rows, ss[i][0], ss[0][0]);
    }
    assert GroupsGood(c, ById(rows), ss, RenderedFile(c, ss).path);
    forall i, k | 0 <= i < |ss| && 0 <= k < |ss[i]|
      ensures ss[i][k].family == ss[0][0].family
    {
      assert SharedOk(ss[i]);
      assert k > 0 ==> Agrees(ss[i][k], ss[i][0]);
    }
  }

  lemma SameRunner(rows: seq<Row>, r: Row, q: Row)
    requires OneRunner(rows) && r in rows && q in rows && r.family == q.family
    ensures r.runner == q.runner
  {
  }

  /** The rows of hand-written families, which the generator leaves out. */
  function Missing(c: Layout, rows: seq<Row>): seq<Problem>
  {
    if rows == [] then []
    else Missing(c, rows[..|rows| - 1]) + (if rows[|rows| - 1].family in c.handWritten then [NoScenario(rows[|rows| - 1].id)] else [])
  }

  /** The kept identifiers of rows with distinct identifiers, counted. */
  lemma {:induction false} KeptCount(c: Layout, rows: seq<Row>, f: Row -> seq<string>, i: nat)
    requires IdsApart(rows) && i < |rows| && forall r :: f(r) == KeptId(c, r)
    ensures multiset(FlatMap(rows, f))[rows[i].id] == if rows[i].family in c.handWritten then 0 else 1
  {
    var n := |rows| - 1;
    assert multiset(FlatMap(rows, f)) == multiset(FlatMap(rows[..n], f)) + multiset(f(rows[n]));
    assert f(rows[n]) == KeptId(c, rows[n]);
    if i < n {
      KeptCount(c, rows[..n], f, i);
      assert rows[n].id != rows[i].id;
    } else {
      NoneKept(c, rows[..n], f, rows[n].id);
    }
  }

  lemma {:induction false} NoneKept(c: Layout, rows: seq<Row>, f: Row -> seq<string>, id: string)
    requires (forall i :: 0 <= i < |rows| ==> rows[i].id != id) && forall r :: f(r) == KeptId(c, r)
    ensures multiset(FlatMap(rows, f))[id] == 0
  {
    if rows != [] {
      NoneKept(c, rows[..|rows| - 1], f, id);
    }
  }

  lemma {:induction false} CountsAre(c: Layout, rows: seq<Row>, found: multiset<string>)
    requires forall i :: 0 <= i < |rows| ==> found[rows[i].id] == if rows[i].family in c.handWritten then 0 else 1
    ensures CountProblems(rows, found) == Missing(c, rows)
  {
    if rows != [] {
      CountsAre(c, rows[..|rows| - 1], found);
    }
  }

  /** For every valid annex the feature check accepts the trees that the generated files are meant to have, in
      whatever order it reads them: the only thing it reports is that the rows of hand-written families, which are
      not generated, have no scenario. */
  lemma TreesSatisfyChecker(c: Layout, a: Annex, files: seq<File>)
    requires Valid(c, a) && multiset(files) == multiset(Rendered(c, a))
    ensures Problems(c, a, files) == Missing(c, a.rows)
    ensures (forall i :: 0 <= i < |a.rows| ==> a.rows[i].family !in c.handWritten) ==> Problems(c, a, files) == []
  {
    GeneratedFilesAreClean(c, a, files);
    GeneratedFilesCount(c, a, files);
    CountsAre(c, a.rows, multiset(FilesFound(ById(a.rows), files)));
    NothingMissing(c, a.rows);
  }

  lemma {:induction false} NothingMissing(c: Layout, rows: seq<Row>)
    ensures (forall i :: 0 <= i < |rows| ==> rows[i].family !in c.handWritten) ==> Missing(c, rows) == []
  {
    if rows != [] {
      NothingMissing(c, rows[..|rows| - 1]);
    }
  }

  lemma GeneratedFilesAreClean(c: Layout, a: Annex, files: seq<File>)
    requires Valid(c, a) && multiset(files) == multiset(Rendered(c, a))
    ensures FilesProblems(c, ById(a.rows), files) == []
  {
    AllFamiliesGood(c, a);
    forall f | f in files
      ensures FileProblems(c, ById(a.rows), f) == []
    {
      assert f in multiset(files);
      assert f in Rendered(c, a);
      RenderedClean(c, ById(a.rows), ByFamily(a.rows), f);
    }
    CleanFiles(c, ById(a.rows), files);
  }

  lemma AllFamiliesGood(c: Layout, a: Annex)
    requires Valid(c, a)
    ensures forall j :: 0 <= j < |ByFamily(a.rows)| ==> FamilyGood(c, ById(a.rows), ByFamily(a.rows)[j])
  {
    forall j | 0 <= j < |ByFamily(a.rows)|
      ensures FamilyGood(c, ById(a.rows), ByFamily(a.rows)[j])
    {
      FamiliesGood(c, a, j);
    }
  }

  /** In the generated files every row of a generated family has exactly one scenario, every other row none. */
  lemma GeneratedFilesCount(c: Layout, a: Annex, files: seq<File>)
    requires Valid(c, a) && multiset(files) == multiset(Rendered(c, a))
    ensures forall i :: 0 <= i < |a.rows| ==>
              multiset(FilesFound(ById(a.rows), files))[a.rows[i].id] == if a.rows[i].family in c.handWritten then 0 else 1
  {
    var f := (r: Row) => KeptId(c, r);
    AllFamiliesGood(c, a);
    FoundPermutes(ById(a.rows), files, Rendered(c, a));
    RenderedFound(c, ById(a.rows), ByFamily(a.rows), f);
    GroupedTwicePartitions(a.rows, ShareKey, Family);
    FlatMapPermutes(Flat(Flat(ByFamily(a.rows))), a.rows, f);
    forall i | 0 <= i < |a.rows|
      ensures multiset(FlatMap(a.rows, f))[a.rows[i].id] == if a.rows[i].family in c.handWritten then 0 else 1
    {
      KeptCount(c, a.rows, f, i);
    }
  }

  // ---- Nothing is overwritten ------------------------------------------------------------------------

  lemma PathsTellFamilies(c: Layout, f: string, r: Runner, g: string, q: Runner)
    requires f !in c.handWritten && g !in c.handWritten && r != OtherRunner && q != OtherRunner
    requires FeaturePath(c, f, r) == FeaturePath(c, g, q)
    ensures f == g
  {
    var p, n := FeaturePath(c, f, r), |"features/"| + 3;
    assert |RunnerName(r)| == 2 && |RunnerName(q)| == 2;
    assert p[n..] == f + ".feature";
    assert p[n..] == g + ".feature";
    assert f == p[n..][..|p[n..]| - |".feature"|] == g;
  }

  ghost predicate PathsApart(files: seq<TextFile>)
  {
    forall i, j :: 0 <= i < j < |files| ==> files[i].path != files[j].path
  }

  lemma {:induction false} RenderedPathsApart(c: Layout, fs: seq<seq<seq<Row>>>)
    requires GroupsOk(fs, Family) && forall i :: 0 <= i < |fs| ==> FamilyGroup(fs[i]) && fs[i][0][0].runner != OtherRunner
    ensures PathsApart(RenderedTexts(c, fs))
    ensures forall k :: 0 <= k < |RenderedTexts(c, fs)| ==> IsPathOf(c, fs, RenderedTexts(c, fs)[k].path)
  {
    if fs != [] {
      var n := |fs| - 1;
      RenderedPathsApart(c, fs[..n]);
      if Generated(c, fs[n]) {
        OnePathApart(c, fs, RenderedTexts(c, fs[..n]), [RenderedTextFile(c, fs[n])]);
      } else {
        OnePathApart(c, fs, RenderedTexts(c, fs[..n]), []);
      }
    }
  }

  /** The path is that of one of the families, which is generated. */
  ghost predicate IsPathOf(c: Layout, fs: seq<seq<seq<Row>>>, path: string)
  {
    exists i :: 0 <= i < |fs| && Generated(c, fs[i]) && path == PathFor(c, fs[i])
  }

  lemma OnePathApart(c: Layout, fs: seq<seq<seq<Row>>>, done: seq<TextFile>, more: seq<TextFile>)
    requires fs != [] && GroupsOk(fs, Family) && forall i :: 0 <= i < |fs| ==> FamilyGroup(fs[i]) && fs[i][0][0].runner != OtherRunner
    requires PathsApart(done) && forall k :: 0 <= k < |done| ==> IsPathOf(c, fs[..|fs| - 1], done[k].path)
    requires more == [] || (|more| == 1 && Generated(c, fs[|fs| - 1]) && more[0].path == PathFor(c, fs[|fs| - 1]))
    ensures PathsApart(done + more) && forall k :: 0 <= k < |done + more| ==> IsPathOf(c, fs, (done + more)[k].path)
  {
    forall k | 0 <= k < |done|
      ensures IsPathOf(c, fs, done[k].path) && (more != [] ==> done[k].path != more[0].path)
    {
      PathApart(c, fs, done[k].path);
    }
  }

  lemma PathApart(c: Layout, fs: seq<seq<seq<Row>>>, path: string)
    requires fs != [] && GroupsOk(fs, Family) && forall i :: 0 <= i < |fs| ==> FamilyGroup(fs[i]) && fs[i][0][0].runner != OtherRunner
    requires IsPathOf(c, fs[..|fs| - 1], path)
    ensures IsPathOf(c, fs, path) && (Generated(c, fs[|fs| - 1]) ==> path != PathFor(c, fs[|fs| - 1]))
  {
    var n := |fs| - 1;
    var i :| 0 <= i < n && Generated(c, fs[..n][i]) && path == PathFor(c, fs[..n][i]);
    assert fs[..n][i] == fs[i] && Family(fs[i][0]) != Family(fs[n][0]);
    if Generated(c, fs[n]) && path == PathFor(c, fs[n]) {
      PathsTellFamilies(c, fs[i][0][0].family, fs[i][0][0].runner, fs[n][0][0].family, fs[n][0][0].runner);
    }
  }

  lemma {:induction false} ByPathKeeps(files: seq<TextFile>, f: TextFile)
    requires PathsApart(files) && f in files
    ensures f.path in ByPath(files) && ByPath(files)[f.path] == f.text
  {
    var n := |files| - 1;
    if f != files[n] {
      var i :| 0 <= i < n && files[i] == f;
      assert files[i].path != files[n].path && files[..n][i] == f;
      ByPathKeeps(files[..n], f);
    }
  }

  lemma {:induction false} ByPathSize(files: seq<TextFile>)
    requires PathsApart(files)
    ensures |ByPath(files)| == |files|
  {
    if files != [] {
      var n := |files| - 1;
      ByPathSize(files[..n]);
      ByPathFrom(files[..n]);
      assert files[n].path !in ByPath(files[..n]);
    }
  }

  lemma {:induction false} ByPathFrom(files: seq<TextFile>)
    ensures forall p :: p in ByPath(files) ==> exists i :: 0 <= i < |files| && files[i].path == p
  {
    if files != [] {
      ByPathFrom(files[..|files| - 1]);
    }
  }

  /** For a valid annex no generated file overwrites another: the generator's map holds all of them. */
  lemma NothingOverwritten(c: Layout, a: Annex)
    requires Valid(c, a)
    ensures PathsApart(Texts(c, a)) && |ByPath(Texts(c, a))| == |Texts(c, a)|
    ensures forall f :: f in Texts(c, a) ==> f.path in ByPath(Texts(c, a)) && ByPath(Texts(c, a))[f.path] == f.text
  {
    var fs: seq<seq<seq<Row>>> := ByFamily(a.rows);
    AllFamiliesGood(c, a);
    GroupedOk(Scenarios(a.rows), Family);
    forall i | 0 <= i < |fs|
      ensures FamilyGroup(fs[i]) && fs[i][0][0].runner != OtherRunner
    {
      assert FamilyGood(c, ById(a.rows), fs[i]);
      assert Own(ById(a.rows), fs[i][0]);
    }
    RenderedPathsApart(c, fs);
    ByPathSize(Texts(c, a));
    forall f | f in Texts(c, a)
      ensures f.path in ByPath(Texts(c, a)) && ByPath(Texts(c, a))[f.path] == f.text
    {
      ByPathKeeps(Texts(c, a), f);
    }
  }

  // ---- Each row is in exactly one scenario -------------------------------------------------------------

  /** The scenarios hold each row exactly once; a scenario with a shared execution holds all the rows that list
      it, in annex order, and a row without one is a scenario of its own. */
  lemma EachRowInOneScenario(rows: seq<Row>)
    ensures multiset(Flat(Scenarios(rows))) == multiset(rows)
    ensures forall i :: 0 <= i < |Scenarios(rows)| ==>
              var s := Scenarios(rows)[i];
              s != [] && if s[0].sharedExecution == [] then |s| == 1 else s == Select(rows, Join(s[0].sharedExecution, " "), ShareKey)
  {
    GroupedPartitions(rows, ShareKey);
    GroupedOk(rows, ShareKey);
    forall i | 0 <= i < |Scenarios(rows)| && Scenarios(rows)[i][0].sharedExecution != []
      ensures var s := Scenarios(rows)[i]; s == Select(rows, Join(s[0].sharedExecution, " "), ShareKey)
    {
      GroupIsSelection(rows, ShareKey, Join(Scenarios(rows)[i][0].sharedExecution, " "));
    }
    assert forall i :: 0 <= i < |Scenarios(rows)| ==> GroupOk(Scenarios(rows)[i], ShareKey);
  }

  // ---- What the feature check lets pass ----------------------------------------------------------------------

  lemma {:induction false} FilesProblemsHave(c: Layout, byId: map<string, Row>, files: seq<File>, k: nat)
    requires k < |files| && FilesProblems(c, byId, files) == []
    ensures FileProblems(c, byId, files[k]) == []
  {
    if k < |files| - 1 {
      FilesProblemsHave(c, byId, files[..|files| - 1], k);
    }
  }

  lemma {:induction false} ScenariosProblemsHave(c: Layout, byId: map<string, Row>, path: string, ls: seq<Located>, j: nat)
    requires j < |ls| && ScenariosProblems(c, byId, path, ls) == []
    ensures ScenarioProblems(c, byId, path, ls[j]) == []
  {
    if j < |ls| - 1 {
      ScenariosProblemsHave(c, byId, path, ls[..|ls| - 1], j);
    }
  }

  lemma {:induction false} DifferProblemsHave(path: string, rows: seq<Row>, i: nat)
    requires i < |rows| && DifferProblems(path, rows) == []
    ensures SharesScenario(rows[i], rows[0])
  {
    if i > 0 && i < |rows| - 1 {
      DifferProblemsHave(path, rows[..|rows| - 1], i);
    }
  }

  lemma {:induction false} FoundSomewhere(byId: map<string, Row>, files: seq<File>, id: string)
    requires id in FilesFound(byId, files)
    ensures exists k :: 0 <= k < |files| && id in ScenariosFound(byId, LocatedIn(files[k]))
  {
    if id !in ScenariosFound(byId, LocatedIn(files[|files| - 1])) {
      FoundSomewhere(byId, files[..|files| - 1], id);
      var k :| 0 <= k < |files| - 1 && id in ScenariosFound(byId, LocatedIn(files[..|files| - 1][k]));
      assert id in ScenariosFound(byId, LocatedIn(files[k]));
    }
  }

  lemma {:induction false} FoundInScenario(byId: map<string, Row>, ls: seq<Located>, id: string)
    requires id in ScenariosFound(byId, ls)
    ensures exists j :: 0 <= j < |ls| && id in KnownTags(byId, Names(ls[j].scenario.tags))
  {
    if id !in KnownTags(byId, Names(ls[|ls| - 1].scenario.tags)) {
      FoundInScenario(byId, ls[..|ls| - 1], id);
      var j :| 0 <= j < |ls| - 1 && id in KnownTags(byId, Names(ls[..|ls| - 1][j].scenario.tags));
      assert id in KnownTags(byId, Names(ls[j].scenario.tags));
    }
  }

  lemma {:induction false} TagsAndRows(byId: map<string, Row>, names: seq<string>, id: string)
    requires id in KnownTags(byId, names)
    ensures id in byId && byId[id] in KnownRows(byId, names)
  {
    var n := |names| - 1;
    if id in KnownTags(byId, names[..n]) {
      TagsAndRows(byId, names[..n], id);
    }
  }

  /** The scenario is the row word for word, with the right tags and no background. */
  predicate Verbatim(l: Located, r: Row)
  {
    var names, steps := Names(l.scenario.tags), l.scenario.steps;
    && !l.background && |steps| == 3
    && (forall i :: 0 <= i < 3 ==> steps[i].plain && steps[i].keyword == KEYWORDS[i])
    && Rebuilt(steps[0].text, steps[1].text, steps[2].text) == r.statement
    && ("pending" in names <==> r.status == Pending) && ("cluster" in Names(l.inherited) + names <==> r.cluster)
  }

  /** The scenario is in the file of its first row and has the test identifiers of exactly its rows. */
  predicate InPlace(c: Layout, byId: map<string, Row>, path: string, l: Located)
  {
    var names := Names(l.scenario.tags);
    var rows := KnownRows(byId, names);
    rows != [] && path == FeaturePath(c, rows[0].family, rows[0].runner) && SameTestIds(names, rows)
  }

  lemma CleanScenarioIsVerbatim(c: Layout, byId: map<string, Row>, path: string, l: Located, r: Row)
    requires ScenarioProblems(c, byId, path, l) == [] && r in KnownRows(byId, Names(l.scenario.tags))
    ensures Verbatim(l, r) && InPlace(c, byId, path, l)
  {
    var names := Names(l.scenario.tags);
    var rows := KnownRows(byId, names);
    assert RowProblems(c, path, l, names, rows) == [];
    CleanTags(path, l, names, rows);
    var i :| 0 <= i < |rows| && rows[i] == r;
    DifferProblemsHave(path, rows, i);
    CleanBody(path, l.scenario.steps, rows[0]);
  }

  lemma CleanTags(path: string, l: Located, names: seq<string>, rows: seq<Row>)
    requires rows != [] && TagProblems(path, l, names, rows) == []
    ensures !l.background && SameTestIds(names, rows) && DifferProblems(path, rows) == []
    ensures ("pending" in names) == (rows[0].status == Pending) && ("cluster" in Names(l.inherited) + names) == rows[0].cluster
  {
  }

  lemma CleanBody(path: string, steps: seq<Step>, r: Row)
    requires BodyProblems(path, steps, r) == []
    ensures |steps| == 3 && Rebuilt(steps[0].text, steps[1].text, steps[2].text) == r.statement
    ensures forall i :: 0 <= i < 3 ==> steps[i].plain && steps[i].keyword == KEYWORDS[i] && steps[i].text == Clauses(r)[i]
  {
    assert StepProblems(path, steps, r, 3) == [];
    assert StepProblems(path, steps, r, 2) == [];
    assert StepProblems(path, steps, r, 1) == [];
  }

  lemma {:induction false} CountProblemsHave(rows: seq<Row>, found: multiset<string>, i: nat)
    requires i < |rows| && CountProblems(rows, found) == []
    ensures found[rows[i].id] == 1
  {
    if i < |rows| - 1 {
      CountProblemsHave(rows[..|rows| - 1], found, i);
    }
  }

  lemma FoundAt(byId: map<string, Row>, files: seq<File>, id: string) returns (k: nat, j: nat)
    requires id in FilesFound(byId, files)
    ensures k < |files| && j < |LocatedIn(files[k])| && id in KnownTags(byId, Names(LocatedIn(files[k])[j].scenario.tags))
  {
    FoundSomewhere(byId, files, id);
    k :| 0 <= k < |files| && id in ScenariosFound(byId, LocatedIn(files[k]));
    FoundInScenario(byId, LocatedIn(files[k]), id);
    j :| 0 <= j < |LocatedIn(files[k])| && id in KnownTags(byId, Names(LocatedIn(files[k])[j].scenario.tags));
  }

  lemma CleanLocated(c: Layout, byId: map<string, Row>, files: seq<File>, k: nat, j: nat)
    requires FilesProblems(c, byId, files) == [] && k < |files| && j < |LocatedIn(files[k])|
    ensures ScenarioProblems(c, byId, files[k].path, LocatedIn(files[k])[j]) == []
  {
    FilesProblemsHave(c, byId, files, k);
    assert files[k].doc.Feature?;
    ScenariosProblemsHave(c, byId, files[k].path, LocatedIn(files[k]), j);
  }

  /** The scenario is tagged with the row, is the row word for word, and is where it belongs. */
  predicate Carries(c: Layout, byId: map<string, Row>, path: string, l: Located, r: Row)
  {
    r.id in Names(l.scenario.tags) && Verbatim(l, r) && InPlace(c, byId, path, l)
  }

  lemma CleanTagCarries(c: Layout, byId: map<string, Row>, path: string, l: Located, r: Row)
    requires ScenarioProblems(c, byId, path, l) == [] && r.id in KnownTags(byId, Names(l.scenario.tags))
    requires r.id in byId ==> byId[r.id] == r
    ensures Carries(c, byId, path, l, r)
  {
    TagsAndRows(byId, Names(l.scenario.tags), r.id);
    TagIsName(byId, Names(l.scenario.tags), r.id);
    CleanScenarioIsVerbatim(c, byId, path, l, r);
  }

  lemma {:induction false} TagIsName(byId: map<string, Row>, names: seq<string>, id: string)
    requires id in KnownTags(byId, names)
    ensures id in names
  {
    var n := |names| - 1;
    if id in KnownTags(byId, names[..n]) {
      TagIsName(byId, names[..n], id);
    }
  }
}
