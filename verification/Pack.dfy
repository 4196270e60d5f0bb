/**
 The acceptance features: the annex of requirement rows, the scenarios the rows make up, and the
 feature files generated from them, as text and as the syntax trees that text is meant to have.
 */
module Pack {
  import opened Text
  import opened Grouping
  import opened Gherkin

  datatype Runner = Go | Js | OtherRunner

  datatype Status = Implemented | Pending | OtherStatus

  datatype Row = Row(
    id: string,
    testId: string,
    requirement: string,
    evidencePath: string,
    sharedExecution: seq<string>,
    statement: string,
    givenText: string,
    whenText: string,
    thenText: string,
    family: string,
    runner: Runner,
    status: Status,
    cluster: bool)

  datatype Annex = Annex(source: string, sha256: string, rows: seq<Row>)

  /** The families' titles, the feature files of those written by hand, and the notice on top of a generated file. */
  datatype Layout = Layout(titles: map<string, string>, handWritten: map<string, string>, notice: string)

  /** A feature file as a syntax tree, and as text. */
  datatype File = File(path: string, doc: Document)

  datatype TextFile = TextFile(path: string, text: string)

  // ---- Identifiers ---------------------------------------------------------------------------------

  predicate Digits(s: string)
  {
    forall i :: 0 <= i < |s| ==> '0' <= s[i] <= '9'
  }

  predicate Numbered(s: string, prefix: string)
  {
    HasPrefix(s, prefix) && |s| > |prefix| && Digits(s[|prefix|..])
  }

  /** Shaped like a row identifier, with any number of digits. */
  predicate RowTagLike(s: string)
  {
    Numbered(s, "ZT-") || Numbered(s, "TDR-BDD-") || Numbered(s, "M7-")
  }

  predicate TestIdLike(s: string)
  {
    Numbered(s, "BDD-ZT-") || Numbered(s, "BDD-TDR-") || Numbered(s, "BDD-M7-")
  }

  predicate RowId(s: string)
  {
    || (Numbered(s, "ZT-") && |s| == 5) || (Numbered(s, "TDR-BDD-") && |s| == 10) || (Numbered(s, "M7-") && |s| == 5)
  }

  predicate TestId(s: string)
  {
    || (Numbered(s, "BDD-ZT-") && |s| == 10) || (Numbered(s, "BDD-TDR-") && |s| == 11) || (Numbered(s, "BDD-M7-") && |s| == 10)
  }

  predicate Word(s: string)
  {
    s != "" && forall i :: 0 <= i < |s| ==> 'a' <= s[i] <= 'z' || '0' <= s[i] <= '9'
  }

  /** A word, and then `n` groups of a dash and three digits. */
  predicate Suffixed(s: string, n: nat)
  {
    && |s| > 4 * n && Word(s[..|s| - 4 * n])
    && forall i :: 0 <= i < n ==>
         s[|s| - 4 * n + 4 * i] == '-' && Digits(s[|s| - 4 * n + 4 * i + 1..|s| - 4 * n + 4 * i + 4])
  }

  predicate EvidencePath(s: string)
  {
    && |s| > 1 && s[|s| - 1] == '/'
    && var t := s[..|s| - 1];
       || (HasPrefix(t, "evidence/bdd-") && Suffixed(t[|"evidence/bdd-"|..], 1))
       || (HasPrefix(t, "evidence/shared/bdd-") && Suffixed(t[|"evidence/shared/bdd-"|..], 2))
  }

  // ---- Scenarios -----------------------------------------------------------------------------------

  /** Rows with the same shared execution are one scenario, a row without one is its own. */
  function ShareKey(r: Row): Option<string>
  {
    if r.sharedExecution == [] then None else Some(Join(r.sharedExecution, " "))
  }

  function Scenarios(rows: seq<Row>): seq<seq<Row>>
  {
    Grouped(rows, ShareKey)
  }

  function Family(s: seq<Row>): Option<string>
  {
    if s == [] then None else Some(s[0].family)
  }

  function ByFamily(rows: seq<Row>): seq<seq<seq<Row>>>
  {
    Grouped(Scenarios(rows), Family)
  }

  method ScenariosOf(rows: seq<Row>) returns (out: seq<seq<Row>>)
    ensures out == Scenarios(rows)
  {
    out := [];
    var at: map<string, nat> := map[];
    assert rows[..0] == [];
    for i := 0 to |rows|
      invariant out == Scenarios(rows[..i]) && Indexed(out, at)
    {
      var r := rows[i];
      assert rows[..i + 1][..i] == rows[..i];
      GroupedOk(rows[..i], ShareKey);
      AddedOk(out, r, ShareKey);
      ghost var next := Added(out, r, ShareKey);
      if r.sharedExecution == [] {
        out := out + [[r]];
      } else {
        var key := Join(r.sharedExecution, " ");
        if key in at {
          FindIs(out, Some(key), ShareKey, at[key]);
          out := out[at[key] := out[at[key]] + [r]];
        } else {
          at := at[key := |out|];
          out := out + [[r]];
        }
      }
      assert out == next;
    }
    assert rows[..|rows|] == rows;
  }

  /** The map knows where the scenario of each key is. */
  ghost predicate Indexed(out: seq<seq<Row>>, at: map<string, nat>)
  {
    && (forall j :: 0 <= j < |out| ==> out[j] != [])
    && (forall k :: k in at ==> at[k] < |out| && ShareKey(out[at[k]][0]) == Some(k))
    && (forall j :: 0 <= j < |out| && ShareKey(out[j][0]).Some? ==> ShareKey(out[j][0]).value in at)
  }

  /** The tags of a scenario: the row and test identifiers of each of its rows, then what they have in common. */
  function RowTags(s: seq<Row>): seq<string>
  {
    if s == [] then [] else RowTags(s[..|s| - 1]) + ["@" + s[|s| - 1].id, "@" + s[|s| - 1].testId]
  }

  function Tags(s: seq<Row>): seq<string>
    requires s != []
  {
    RowTags(s) + (if s[0].status == Pending then ["@pending"] else []) + (if s[0].cluster then ["@cluster"] else [])
  }

  method TagsOf(s: seq<Row>) returns (tags: seq<string>)
    requires s != []
    ensures tags == Tags(s)
  {
    tags := [];
    for i := 0 to |s|
      invariant tags == RowTags(s[..i])
    {
      assert s[..i + 1][..i] == s[..i];
      tags := tags + ["@" + s[i].id, "@" + s[i].testId];
    }
    assert s[..|s|] == s;
    if s[0].status == Pending {
      tags := tags + ["@pending"];
    }
    if s[0].cluster {
      tags := tags + ["@cluster"];
    }
  }

  /** The distinct requirements of a scenario's rows, in order. */
  function Requirements(s: seq<Row>): seq<string>
  {
    if s == [] then []
    else
      var names, r := Requirements(s[..|s| - 1]), s[|s| - 1].requirement;
      if r in names then names else names + [r]
  }

  function ScenarioName(s: seq<Row>): string
  {
    Join(Requirements(s), " / ")
  }

  method NameOf(s: seq<Row>) returns (name: string)
    ensures name == ScenarioName(s)
  {
    var names := [];
    for i := 0 to |s|
      invariant names == Requirements(s[..i])
    {
      assert s[..i + 1][..i] == s[..i];
      if s[i].requirement !in names {
        names := names + [s[i].requirement];
      }
    }
    assert s[..|s|] == s;
    name := Join(names, " / ");
  }

  // ---- Rendering -----------------------------------------------------------------------------------

  function RunnerName(r: Runner): string
  {
    match r case Go => "go" case Js => "js" case OtherRunner => ""
  }

  function FeaturePath(c: Layout, family: string, runner: Runner): string
  {
    if family in c.handWritten then c.handWritten[family]
    else "features/" + RunnerName(runner) + "/" + family + ".feature"
  }

  function Ended(line: string): string
  {
    line + "\n"
  }

  function Title(c: Layout, family: string): string
  {
    if family in c.titles then c.titles[family] else ""
  }

  function Heading(c: Layout, family: string): string
  {
    Ended("# " + c.notice) + Ended("Feature: " + Title(c, family))
    + Ended("  Annex A rows for " + Title(c, family) + ", worded exactly as in the Annex.")
  }

  function Block(s: seq<Row>): string
    requires s != []
  {
    Ended("") + Ended("  " + Join(Tags(s), " ")) + Ended("  Scenario: " + ScenarioName(s))
    + Ended("    Given " + s[0].givenText) + Ended("    When " + s[0].whenText) + Ended("    Then " + s[0].thenText)
  }

  function Blocks(ss: seq<seq<Row>>): string
    requires forall i :: 0 <= i < |ss| ==> ss[i] != []
  {
    if ss == [] then "" else Blocks(ss[..|ss| - 1]) + Block(ss[|ss| - 1])
  }

  /** The text of the feature file of one family's scenarios. */
  function RenderedText(c: Layout, ss: seq<seq<Row>>): string
    requires FamilyGroup(ss)
  {
    Heading(c, ss[0][0].family) + Blocks(ss)
  }

  /** The tree a scenario is meant to have; its name is what its own line shows. */
  function RenderedScenario(s: seq<Row>): Scenario
    requires s != []
  {
    Scenario(TrimSpace(Split(ScenarioName(s), '\n')[0]), Tags(s),
             [Step("Given", s[0].givenText, true), Step("When", s[0].whenText, true), Step("Then", s[0].thenText, true)], [])
  }

  function RenderedScenarios(ss: seq<seq<Row>>): seq<Scenario>
    requires forall i :: 0 <= i < |ss| ==> ss[i] != []
  {
    if ss == [] then [] else RenderedScenarios(ss[..|ss| - 1]) + [RenderedScenario(ss[|ss| - 1])]
  }

  predicate FamilyGroup(ss: seq<seq<Row>>)
  {
    ss != [] && forall i :: 0 <= i < |ss| ==> ss[i] != []
  }

  function PathFor(c: Layout, ss: seq<seq<Row>>): string
    requires FamilyGroup(ss)
  {
    FeaturePath(c, ss[0][0].family, ss[0][0].runner)
  }

  /** The feature file of one family's scenarios, as a tree and as text. */
  function RenderedFile(c: Layout, ss: seq<seq<Row>>): File
    requires FamilyGroup(ss)
  {
    File(PathFor(c, ss), Feature([], AsChildren(RenderedScenarios(ss))))
  }

  function RenderedTextFile(c: Layout, ss: seq<seq<Row>>): TextFile
    requires FamilyGroup(ss)
  {
    TextFile(PathFor(c, ss), RenderedText(c, ss))
  }

  predicate Generated(c: Layout, ss: seq<seq<Row>>)
  {
    FamilyGroup(ss) && ss[0][0].family !in c.handWritten
  }

  function RenderedFiles(c: Layout, fs: seq<seq<seq<Row>>>): seq<File>
  {
    if fs == [] then []
    else RenderedFiles(c, fs[..|fs| - 1]) + (if Generated(c, fs[|fs| - 1]) then [RenderedFile(c, fs[|fs| - 1])] else [])
  }

  function RenderedTexts(c: Layout, fs: seq<seq<seq<Row>>>): seq<TextFile>
  {
    if fs == [] then []
    else RenderedTexts(c, fs[..|fs| - 1]) + (if Generated(c, fs[|fs| - 1]) then [RenderedTextFile(c, fs[|fs| - 1])] else [])
  }

  /** The generated feature files, in the order their families appear: their trees and their texts. */
  function Rendered(c: Layout, annex: Annex): seq<File>
  {
    RenderedFiles(c, ByFamily(annex.rows))
  }

  function Texts(c: Layout, annex: Annex): seq<TextFile>
  {
    RenderedTexts(c, ByFamily(annex.rows))
  }

  /** The texts as the generator keeps them, by path. */
  function ByPath(files: seq<TextFile>): map<string, string>
  {
    if files == [] then map[] else ByPath(files[..|files| - 1])[files[|files| - 1].path := files[|files| - 1].text]
  }

  /** The scenarios of each family, and the families in order. */
  ghost predicate Collected(gs: seq<seq<seq<Row>>>, families: seq<string>, byFamily: map<string, seq<seq<Row>>>)
  {
    && |families| == |gs| && (forall j :: 0 <= j < |gs| ==> gs[j] != [] && Family(gs[j][0]) == Some(families[j]))
    && (forall j :: 0 <= j < |gs| ==> families[j] in byFamily && byFamily[families[j]] == gs[j])
    && (forall f :: f in byFamily ==> f in families)
  }

  method Render(c: Layout, annex: Annex) returns (files: map<string, string>)
    ensures files == ByPath(Texts(c, annex))
  {
    var ss := ScenariosOf(annex.rows);
    GroupedOk(annex.rows, ShareKey);
    assert forall i :: 0 <= i < |ss| ==> GroupOk(ss[i], ShareKey);
    var families: seq<string>, byFamily: map<string, seq<seq<Row>>> := Collect(ss);
    files := RenderAll(c, Grouped(ss, Family), families, byFamily);
  }

  method RenderAll(c: Layout, ghost gs: seq<seq<seq<Row>>>, families: seq<string>, byFamily: map<string, seq<seq<Row>>>)
    returns (files: map<string, string>)
    requires Collected(gs, families, byFamily) && forall j :: 0 <= j < |gs| ==> FamilyGroup(gs[j])
    ensures files == ByPath(RenderedTexts(c, gs))
  {
    files := map[];
    for i := 0 to |families|
      invariant files == ByPath(RenderedTexts(c, gs[..i]))
    {
      var list: seq<seq<Row>> := byFamily[families[i]];
      assert list == gs[i] && FamilyGroup(list) && Family(list[0]) == Some(families[i]);
      ghost var done := RenderedTexts(c, gs[..i]);
      RenderedSnoc(c, gs, i);
      if families[i] !in c.handWritten {
        var text := RenderFeature(c, families[i], list);
        files := files[FeaturePath(c, list[0][0].family, list[0][0].runner) := text];
        ByPathSnoc(done, RenderedTextFile(c, gs[i]));
        assert RenderedTexts(c, gs[..i + 1]) == done + [RenderedTextFile(c, gs[i])];
      } else {
        assert RenderedTexts(c, gs[..i + 1]) == done + [] == done;
      }
    }
    assert gs[..|families|] == gs;
  }

  lemma ByPathSnoc(files: seq<TextFile>, f: TextFile)
    ensures ByPath(files + [f]) == ByPath(files)[f.path := f.text]
  {
    assert (files + [f])[..|files|] == files;
  }

  lemma RenderedSnoc(c: Layout, gs: seq<seq<seq<Row>>>, i: nat)
    requires i < |gs|
    ensures RenderedTexts(c, gs[..i + 1]) == RenderedTexts(c, gs[..i]) + (if Generated(c, gs[i]) then [RenderedTextFile(c, gs[i])] else [])
  {
    assert gs[..i + 1][..i] == gs[..i];
  }

  method RenderFeature(c: Layout, family: string, list: seq<seq<Row>>) returns (text: string)
    requires FamilyGroup(list) && list[0][0].family == family
    ensures text == RenderedText(c, list)
  {
    text := Heading(c, family);
    text := RenderBlocks(text, list);
  }

  method RenderBlocks(heading: string, list: seq<seq<Row>>) returns (text: string)
    requires forall i :: 0 <= i < |list| ==> list[i] != []
    ensures text == heading + Blocks(list)
  {
    text := heading;
    for j := 0 to |list|
      invariant text == heading + Blocks(list[..j])
    {
      BlocksSnoc(heading, list, j);
      text := RenderBlock(text, list[j]);
    }
    assert list[..|list|] == list;
  }

  lemma BlocksSnoc(heading: string, ss: seq<seq<Row>>, j: nat)
    requires j < |ss| && forall i :: 0 <= i < |ss| ==> ss[i] != []
    ensures heading + Blocks(ss[..j + 1]) == heading + Blocks(ss[..j]) + Block(ss[j])
  {
    assert ss[..j + 1][..j] == ss[..j];
    AppendText(heading, Blocks(ss[..j]), Block(ss[j]));
  }

  lemma AppendText(a: string, b: string, c: string)
    ensures a + b + c == a + (b + c)
  {
  }

  method RenderBlock(before: string, s: seq<Row>) returns (text: string)
    requires s != []
    ensures text == before + Block(s)
  {
    var tags := TagsOf(s);
    var name := NameOf(s);
    var r: Row := s[0];
    text := before + (Ended("") + Ended("  " + Join(tags, " ")) + Ended("  Scenario: " + name)
            + Ended("    Given " + r.givenText) + Ended("    When " + r.whenText) + Ended("    Then " + r.thenText));
  }

  method Collect(ss: seq<seq<Row>>) returns (families: seq<string>, byFamily: map<string, seq<seq<Row>>>)
    requires forall i :: 0 <= i < |ss| ==> ss[i] != []
    ensures Collected(Grouped(ss, Family), families, byFamily)
    ensures forall j :: 0 <= j < |families| ==> FamilyGroup(Grouped(ss, Family)[j])
  {
    families, byFamily := [], map[];
    assert ss[..0] == [];
    for i := 0 to |ss|
      invariant Collected(Grouped(ss[..i], Family), families, byFamily)
      invariant forall j :: 0 <= j < |families| ==> FamilyGroup(Grouped(ss[..i], Family)[j])
    {
      assert ss[..i + 1][..i] == ss[..i];
      GroupedOk(ss[..i], Family);
      families, byFamily := CollectOne(Grouped(ss[..i], Family), families, byFamily, ss[i]);
    }
    assert ss[..|ss|] == ss;
  }

  method CollectOne(ghost gs: seq<seq<seq<Row>>>, families: seq<string>, byFamily: map<string, seq<seq<Row>>>, s: seq<Row>)
    returns (families': seq<string>, byFamily': map<string, seq<seq<Row>>>)
    requires s != [] && GroupsOk(gs, Family) && Collected(gs, families, byFamily)
    requires forall j :: 0 <= j < |gs| ==> FamilyGroup(gs[j])
    ensures Collected(Added(gs, s, Family), families', byFamily')
    ensures forall j :: 0 <= j < |families'| ==> FamilyGroup(Added(gs, s, Family)[j])
  {
    var f := s[0].family;
    if f !in byFamily {
      CollectedNew(gs, families, byFamily, s);
      families', byFamily' := families + [f], byFamily[f := [s]];
    } else {
      CollectedMore(gs, families, byFamily, s);
      families', byFamily' := families, byFamily[f := byFamily[f] + [s]];
    }
  }

  lemma CollectedNew(gs: seq<seq<seq<Row>>>, families: seq<string>, byFamily: map<string, seq<seq<Row>>>, s: seq<Row>)
    requires s != [] && Collected(gs, families, byFamily) && s[0].family !in byFamily
    ensures Added(gs, s, Family) == gs + [[s]]
    ensures Collected(gs + [[s]], families + [s[0].family], byFamily[s[0].family := [s]])
  {
    assert Find(gs, Family(s), Family).None?;
  }

  lemma CollectedMore(gs: seq<seq<seq<Row>>>, families: seq<string>, byFamily: map<string, seq<seq<Row>>>, s: seq<Row>)
    requires s != [] && GroupsOk(gs, Family) && Collected(gs, families, byFamily) && s[0].family in byFamily
    requires forall j :: 0 <= j < |gs| ==> FamilyGroup(gs[j])
    ensures Collected(Added(gs, s, Family), families, byFamily[s[0].family := byFamily[s[0].family] + [s]])
    ensures forall j :: 0 <= j < |gs| ==> FamilyGroup(Added(gs, s, Family)[j])
    ensures |Added(gs, s, Family)| == |gs|
  {
    var f := s[0].family;
    var i :| 0 <= i < |families| && families[i] == f;
    FindIs(gs, Some(f), Family, i);
    assert Added(gs, s, Family) == gs[i := gs[i] + [s]];
    assert forall j :: 0 <= j < |gs| && j != i ==> Family(gs[j][0]) != Family(gs[i][0]);
    CollectedUpdate(gs, families, byFamily, s, i);
  }

  lemma CollectedUpdate(gs: seq<seq<seq<Row>>>, families: seq<string>, byFamily: map<string, seq<seq<Row>>>, s: seq<Row>, i: nat)
    requires s != [] && Collected(gs, families, byFamily) && i < |gs| && (forall j :: 0 <= j < |gs| ==> FamilyGroup(gs[j]))
    requires forall j :: 0 <= j < |gs| && j != i ==> families[j] != families[i]
    ensures var hs := gs[i := gs[i] + [s]];
            && Collected(hs, families, byFamily[families[i] := byFamily[families[i]] + [s]])
            && forall j :: 0 <= j < |hs| ==> FamilyGroup(hs[j])
  {
    assert FamilyGroup(gs[i]);
  }
}
