/**
 The generated feature files as text: what their text reads as, and when the feature check accepts it.
 */
module PackText {
  import opened Text
  import opened Grouping
  import opened Gherkin
  import opened Pack
  import opened PackValid
  import opened PackCheck
  import opened PackTheorems

  // ---- Whole lines ---------------------------------------------------------------------------------

  predicate Ends(t: string)
  {
    t == "" || t[|t| - 1] == '\n'
  }

  /** The lines of a text that ends with its last line's end. */
  function LinesOf(t: string): seq<string>
  {
    var parts := Split(t, '\n');
    parts[..|parts| - 1]
  }

  lemma LinesAppend(t: string, u: string)
    requires Ends(t)
    ensures Split(t + u, '\n') == LinesOf(t) + Split(u, '\n')
    ensures LinesOf(t + u) == LinesOf(t) + LinesOf(u)
    ensures Ends(u) ==> Ends(t + u)
  {
    if t == "" {
      assert t + u == u && LinesOf(t) == [];
      assert LinesOf(t) + Split(u, '\n') == Split(u, '\n') && LinesOf(t) + LinesOf(u) == LinesOf(u);
    } else {
      var p := t[..|t| - 1];
      assert t == p + ['\n'] + "" && t + u == p + ['\n'] + u;
      SplitConcat(p, '\n', "");
      SplitConcat(p, '\n', u);
      assert LinesOf(t) == Split(p, '\n');
    }
  }

  /** What has been read after the lines of a text. */
  function After(r: Reading, t: string): Reading
  {
    ReadLines(r, LinesOf(t))
  }

  lemma AfterBoth(r: Reading, t: string, u: string)
    requires Ends(t) && Ends(u)
    ensures After(r, t + u) == After(After(r, t), u) && Ends(t + u)
  {
    LinesAppend(t, u);
    ReadLinesAppend(r, LinesOf(t), LinesOf(u));
  }

  lemma AfterEnded(r: Reading, x: string)
    ensures After(r, Ended(x)) == ReadLines(r, Split(x, '\n')) && Ends(Ended(x))
    ensures '\n' !in x ==> After(r, Ended(x)) == ReadOne(r, Classify(x))
  {
    assert Ended(x) == x + ['\n'] + "";
    SplitConcat(x, '\n', "");
    assert LinesOf(Ended(x)) == Split(x, '\n');
    if '\n' !in x {
      SplitFree(x, '\n');
      ReadLinesOne(r, x);
    }
  }

  lemma LinesAre(t: string)
    requires Ends(t)
    ensures Split(t, '\n') == LinesOf(t) + [""]
  {
    LinesAppend(t, "");
    assert t + "" == t;
  }

  lemma BlankLast(r: Reading, lines: seq<string>)
    ensures ReadLines(r, lines + [""]) == ReadLines(r, lines)
  {
    ReadLinesAppend(r, lines, [""]);
    ReadLinesOne(ReadLines(r, lines), "");
  }

  /** The tree of a text is what has been read after its lines. */
  lemma ReadIsAfter(t: string)
    requires Ends(t)
    ensures Read(t) == Finished(After(START, t))
  {
    LinesAre(t);
    BlankLast(START, LinesOf(t));
  }

  // ---- Classifying the generated lines -------------------------------------------------------------

  predicate SpaceFree(s: string)
  {
    forall i :: 0 <= i < |s| ==> !IsSpace(s[i])
  }

  predicate AllSpace(s: string)
  {
    forall i :: 0 <= i < |s| ==> IsSpace(s[i])
  }

  /** The white space in front of a line does not matter. */
  lemma ClassifyIndented(indent: string, t: string)
    requires AllSpace(indent) && t != "" && !IsSpace(t[0])
    ensures Classify(indent + t) == ClassifyTrimmed(t)
  {
    TrimLeftAll(indent, t, IsSpace);
  }

  /** Two keywords that start the same line are the same. */
  lemma LeadingIs(t: string, keyword: string)
    requires keyword in KEYWORDS && HasPrefix(t, keyword + " ")
    ensures Leading(t, STEP_KEYWORDS) == Some(keyword) && t[0] in {'G', 'W', 'T'} && !HasPrefix(t, "Scenario:") && !HasPrefix(t, "Feature:")
  {
    assert t[0] == keyword[0];
    var i :| 0 <= i < 3 && KEYWORDS[i] == keyword;
    assert STEP_KEYWORDS[i] == keyword;
    LeadingNone(t, STEP_KEYWORDS);
    var r := Leading(t, STEP_KEYWORDS).value;
    assert t[0] == (r + " ")[0];
  }

  lemma TrimSpaceAfterSpace(s: string)
    ensures TrimSpace(" " + s) == TrimSpace(s)
  {
    assert (" " + s)[1..] == s;
  }

  lemma StepStarts(t: string, keyword: string, text: string)
    requires t == keyword + " " + text && keyword in KEYWORDS && Trimmed(text)
    ensures t != "" && !IsSpace(t[0]) && ClassifyTrimmed(t) == ClassifyStep(t, Some(keyword))
  {
    assert (keyword + " ") <= t;
    LeadingIs(t, keyword);
  }

  lemma StepLineIs(keyword: string, text: string)
    requires keyword in KEYWORDS && Trimmed(text)
    ensures Classify("    " + (keyword + " " + text)) == StepLine(keyword, text)
  {
    var t := keyword + " " + text;
    StepStarts(t, keyword, text);
    ClassifyIndented("    ", t);
    TrimSpaceIff(text);
    TrimSpaceAfterSpace(text);
    assert t[|keyword|..] == " " + text;
  }

  lemma ScenarioStarts(t: string)
    requires HasPrefix(t, "Scenario:")
    ensures ClassifyTrimmed(t) == ScenarioLine(TrimSpace(t[9..]))
  {
    assert t[0] == 'S';
  }

  lemma ScenarioLineIs(name: string)
    ensures Classify("  Scenario: " + name) == ScenarioLine(TrimSpace(name))
  {
    var t := "Scenario: " + name;
    assert "  Scenario: " + name == "  " + t;
    ClassifyIndented("  ", t);
    assert "Scenario:" <= t && t[9..] == " " + name;
    ScenarioStarts(t);
    TrimSpaceAfterSpace(name);
  }

  /** Tags without white space, as the generator writes them. */
  ghost predicate TagList(tags: seq<string>)
  {
    tags != [] && forall i :: 0 <= i < |tags| ==> tags[i] != "" && tags[i][0] == '@' && SpaceFree(tags[i])
  }

  lemma {:induction false} JoinedTags(tags: seq<string>)
    requires TagList(tags)
    ensures var t := Join(tags, " "); t != "" && t[0] == '@' && Trimmed(t) && '\n' !in t
  {
    var first := tags[0];
    assert !IsSpace(first[0]) && !IsSpace(first[|first| - 1]);
    assert '\n' !in first;
    if |tags| > 1 {
      JoinedTags(tags[1..]);
      var rest := Join(tags[1..], " ");
      assert Join(tags, " ") == first + " " + rest;
      assert (first + " " + rest)[|first + " " + rest| - 1] == rest[|rest| - 1];
    }
  }

  lemma TagLineIs(tags: seq<string>)
    requires TagList(tags)
    ensures Classify("  " + Join(tags, " ")) == TagLine(tags) && '\n' !in "  " + Join(tags, " ")
  {
    var t := Join(tags, " ");
    JoinedTags(tags);
    ClassifyIndented("  ", t);
    TrimSpaceIff(t);
    forall i | 0 <= i < |tags|
      ensures ' ' !in tags[i]
    {
      assert SpaceFree(tags[i]);
    }
    SplitJoin(tags, ' ');
  }

  lemma NumberedSpaceFree(s: string, prefix: string)
    requires Numbered(s, prefix) && SpaceFree(prefix)
    ensures SpaceFree(s)
  {
    forall i | 0 <= i < |s|
      ensures !IsSpace(s[i])
    {
      if i < |prefix| {
        assert s[i] == prefix[i];
      } else {
        assert s[i] == s[|prefix|..][i - |prefix|];
      }
    }
  }

  lemma RowIdSpaceFree(s: string)
    requires RowId(s)
    ensures SpaceFree("@" + s)
  {
    if Numbered(s, "ZT-") {
      NumberedSpaceFree(s, "ZT-");
    } else if Numbered(s, "TDR-BDD-") {
      NumberedSpaceFree(s, "TDR-BDD-");
    } else {
      NumberedSpaceFree(s, "M7-");
    }
  }

  lemma TestIdSpaceFree(s: string)
    requires TestId(s)
    ensures SpaceFree("@" + s)
  {
    if Numbered(s, "BDD-ZT-") {
      NumberedSpaceFree(s, "BDD-ZT-");
    } else if Numbered(s, "BDD-TDR-") {
      NumberedSpaceFree(s, "BDD-TDR-");
    } else {
      NumberedSpaceFree(s, "BDD-M7-");
    }
  }

  lemma {:induction false} RowTagsAreTags(s: seq<Row>)
    requires s != [] && forall i :: 0 <= i < |s| ==> RowId(s[i].id) && TestId(s[i].testId)
    ensures TagList(RowTags(s))
  {
    var n := |s| - 1;
    RowIdSpaceFree(s[n].id);
    TestIdSpaceFree(s[n].testId);
    if n > 0 {
      RowTagsAreTags(s[..n]);
    } else {
      assert RowTags(s[..n]) == [];
    }
  }

  lemma TagsAreTags(s: seq<Row>)
    requires s != [] && forall i :: 0 <= i < |s| ==> RowId(s[i].id) && TestId(s[i].testId)
    ensures TagList(Tags(s))
  {
    RowTagsAreTags(s);
    assert SpaceFree("@pending") && SpaceFree("@cluster");
  }

  // ---- Reading a generated scenario ----------------------------------------------------------------

  function NameLines(s: seq<Row>): seq<string>
  {
    Split(ScenarioName(s), '\n')
  }

  /** The lines of a scenario's name after the first. */
  function MoreLines(s: seq<Row>): seq<string>
  {
    NameLines(s)[1..]
  }

  /** Each further line of the name is blank or description. */
  predicate QuietName(s: seq<Row>)
  {
    forall i :: 0 <= i < |MoreLines(s)| ==> Quiet(MoreLines(s)[i])
  }

  /** Each further line of the name is blank, description or a step. */
  predicate PlainName(s: seq<Row>)
  {
    forall i :: 0 <= i < |MoreLines(s)| ==> QuietOrStep(MoreLines(s)[i])
  }

  /** What the reading needs of a scenario's rows: identifiers without white space, clauses on one line. */
  predicate Readable(s: seq<Row>)
  {
    && s != [] && (forall i :: 0 <= i < |s| ==> RowId(s[i].id) && TestId(s[i].testId))
    && ClauseOk(s[0].givenText) && ClauseOk(s[0].whenText) && ClauseOk(s[0].thenText)
  }

  /** In the feature, with no tags waiting. */
  predicate Between(r: Reading)
  {
    r.started && r.tags == [] && r.featureTags == [] && !r.beyond
  }

  /** After the tags and the first line of the name. */
  function Opened(r: Reading, s: seq<Row>): Reading
    requires s != []
  {
    r.(scenarios := r.scenarios + [Scenario(TrimSpace(NameLines(s)[0]), Tags(s), [], [])], inSteps := false)
  }

  function Header(s: seq<Row>): string
    requires s != []
  {
    Ended("") + Ended("  " + Join(Tags(s), " ")) + Ended("  Scenario: " + ScenarioName(s))
  }

  lemma HeaderRead(r: Reading, s: seq<Row>)
    requires Between(r) && Readable(s)
    ensures After(r, Header(s)) == ReadLines(Opened(r, s), MoreLines(s)) && Ends(Header(s))
  {
    var blank, tags, name := Ended(""), Ended("  " + Join(Tags(s), " ")), Ended("  Scenario: " + ScenarioName(s));
    AfterEnded(r, "");
    assert Classify("") == Blank;
    TagsAreTags(s);
    TagLineIs(Tags(s));
    AfterEnded(r, "  " + Join(Tags(s), " "));
    AfterBoth(r, blank, tags);
    var tagged := r.(tags := r.tags + Tags(s));
    assert r.tags + Tags(s) == Tags(s);
    NameRead(tagged, s);
    AfterBoth(r, blank + tags, name);
  }

  lemma NameRead(r: Reading, s: seq<Row>)
    requires s != [] && r.started && r.tags == Tags(s)
    ensures var name := Ended("  Scenario: " + ScenarioName(s));
            After(r, name) == ReadLines(Opened(r.(tags := []), s), MoreLines(s)) && Ends(name)
  {
    SplitPrefix("  Scenario: ", ScenarioName(s), '\n');
    AfterLines(r, "  Scenario: " + ScenarioName(s), "  Scenario: " + NameLines(s)[0], MoreLines(s));
    ScenarioLineIs(NameLines(s)[0]);
  }

  lemma AfterLines(r: Reading, x: string, first: string, more: seq<string>)
    requires Split(x, '\n') == [first] + more
    ensures After(r, Ended(x)) == ReadLines(ReadOne(r, Classify(first)), more) && Ends(Ended(x))
  {
    AfterEnded(r, x);
    ReadLinesAppend(r, [first], more);
    ReadLinesOne(r, first);
  }

  function Steps(r: Row): seq<Step>
  {
    [Step("Given", r.givenText, true), Step("When", r.whenText, true), Step("Then", r.thenText, true)]
  }

  /** The last scenario with further steps. */
  function WithSteps(r: Reading, steps: seq<Step>): Reading
    requires r.scenarios != []
  {
    var n := |r.scenarios| - 1;
    r.(scenarios := r.scenarios[n := r.scenarios[n].(steps := r.scenarios[n].steps + steps)], inSteps := true)
  }

  function StepText(keyword: string, text: string): string
  {
    Ended("    " + keyword + " " + text)
  }

  /** In a scenario the text adds one step. */
  ghost predicate AddsStep(t: string, st: Step)
  {
    Ends(t) && forall r {:trigger After(r, t)} :: InScenario(r) ==> After(r, t) == WithSteps(r, [st])
  }

  lemma StepRead(keyword: string, text: string)
    requires keyword in KEYWORDS && ClauseOk(text)
    ensures AddsStep(StepText(keyword, text), Step(keyword, text, true))
  {
    var line := "    " + keyword + " " + text;
    assert line == "    " + (keyword + " " + text);
    TrimSpaceIff(text);
    StepLineIs(keyword, text);
    assert '\n' !in "    " && '\n' !in keyword && '\n' !in " " && '\n' !in text;
    forall r | InScenario(r)
      ensures After(r, Ended(line)) == WithSteps(r, [Step(keyword, text, true)])
    {
      AfterEnded(r, line);
    }
    AfterEnded(START, line);
  }

  lemma WithMoreSteps(r: Reading, a: seq<Step>, b: seq<Step>)
    requires r.scenarios != []
    ensures WithSteps(WithSteps(r, a), b) == WithSteps(r, a + b)
  {
    var n := |r.scenarios| - 1;
    assert r.scenarios[n].steps + a + b == r.scenarios[n].steps + (a + b);
    assert WithSteps(WithSteps(r, a), b).scenarios == WithSteps(r, a + b).scenarios;
  }

  lemma OneStepAfter(r: Reading, before: string, m: Reading, done: seq<Step>, line: string, st: Step)
    requires Ends(before) && InScenario(m) && After(r, before) == WithSteps(m, done) && AddsStep(line, st)
    ensures Ends(before + line) && After(r, before + line) == WithSteps(m, done + [st])
  {
    AfterBoth(r, before, line);
    WithMoreSteps(m, done, [st]);
  }

  /** Three step lines after the header of a scenario. */
  lemma StepsAfter(r: Reading, header: string, given: string, when: string, then': string, steps: seq<Step>)
    requires Ends(header) && InScenario(After(r, header)) && |steps| == 3
    requires AddsStep(given, steps[0]) && AddsStep(when, steps[1]) && AddsStep(then', steps[2])
    ensures var t := header + given + when + then'; Ends(t) && After(r, t) == WithSteps(After(r, header), steps)
  {
    var m := After(r, header);
    AfterBoth(r, header, given);
    OneStepAfter(r, header + given, m, [steps[0]], when, steps[1]);
    OneStepAfter(r, header + given + when, m, [steps[0]] + [steps[1]], then', steps[2]);
    assert [steps[0]] + [steps[1]] + [steps[2]] == steps;
  }

  lemma BlockParts(s: seq<Row>)
    requires s != []
    ensures Block(s) == Header(s) + StepText("Given", s[0].givenText) + StepText("When", s[0].whenText) + StepText("Then", s[0].thenText)
  {
    assert "    " + "Given" + " " == "    Given " && "    " + "When" + " " == "    When " && "    " + "Then" + " " == "    Then ";
  }

  /** The lines of a scenario: its tags, its name, what the name's further lines do, its three clauses. */
  lemma BlockRead(r: Reading, s: seq<Row>)
    requires Between(r) && Readable(s) && PlainName(s)
    ensures var named := ReadLines(Opened(r, s), MoreLines(s));
            Continues(Opened(r, s), named, CountSteps(MoreLines(s))) && After(r, Block(s)) == WithSteps(named, Steps(s[0]))
    ensures Ends(Block(s))
  {
    HeaderRead(r, s);
    LinesContinue(Opened(r, s), MoreLines(s));
    BlockParts(s);
    StepRead("Given", s[0].givenText);
    StepRead("When", s[0].whenText);
    StepRead("Then", s[0].thenText);
    StepsAfter(r, Header(s), StepText("Given", s[0].givenText), StepText("When", s[0].whenText), StepText("Then", s[0].thenText), Steps(s[0]));
  }

  /** The scenario read is the rows' own, but for steps that its name adds. */
  ghost predicate Shown(x: Scenario, s: seq<Row>)
    requires s != []
  {
    x.tags == Tags(s) && x.examples == [] && |x.steps| == CountSteps(MoreLines(s)) + 3
  }

  /** Exactly these scenarios have been read. */
  ghost predicate Shows(r: Reading, ss: seq<seq<Row>>)
    requires forall i :: 0 <= i < |ss| ==> ss[i] != []
  {
    Between(r) && |r.scenarios| == |ss| && forall i :: 0 <= i < |ss| ==> Shown(r.scenarios[i], ss[i])
  }

  lemma BlockShows(r: Reading, s: seq<Row>)
    requires Between(r) && Readable(s) && PlainName(s)
    ensures var t, n := After(r, Block(s)), |r.scenarios|;
            Between(t) && |t.scenarios| == n + 1 && t.scenarios[..n] == r.scenarios && Shown(t.scenarios[n], s)
    ensures Ends(Block(s))
  {
    BlockRead(r, s);
    assert Opened(r, s).scenarios[..|r.scenarios|] == r.scenarios;
  }

  /** With nothing in the name but description the scenario read is exactly the one that is meant. */
  lemma QuietBlockRead(r: Reading, s: seq<Row>)
    requires Between(r) && Readable(s) && QuietName(s)
    ensures After(r, Block(s)) == r.(scenarios := r.scenarios + [RenderedScenario(s)], inSteps := true) && Ends(Block(s))
  {
    BlockRead(r, s);
    QuietLinesStay(Opened(r, s), MoreLines(s));
    var o, t := Opened(r, s), After(r, Block(s));
    assert [] + Steps(s[0]) == Steps(s[0]);
    assert t.scenarios == r.scenarios + [RenderedScenario(s)];
  }

  // ---- Reading a generated file --------------------------------------------------------------------

  ghost predicate AllReadable(ss: seq<seq<Row>>)
  {
    forall i :: 0 <= i < |ss| ==> Readable(ss[i])
  }

  ghost predicate QuietNames(ss: seq<seq<Row>>)
  {
    forall i :: 0 <= i < |ss| ==> QuietName(ss[i])
  }

  ghost predicate PlainNames(ss: seq<seq<Row>>)
  {
    forall i :: 0 <= i < |ss| ==> PlainName(ss[i])
  }

  lemma {:induction false} BlocksShow(r: Reading, ss: seq<seq<Row>>)
    requires Between(r) && r.scenarios == [] && AllReadable(ss) && PlainNames(ss)
    ensures Shows(After(r, Blocks(ss)), ss) && Ends(Blocks(ss))
  {
    if ss == [] {
      assert After(r, "") == r;
    } else {
      var n := |ss| - 1;
      BlocksShow(r, ss[..n]);
      BlockShows(After(r, Blocks(ss[..n])), ss[n]);
      AfterBoth(r, Blocks(ss[..n]), Block(ss[n]));
      OneMoreShown(After(r, Blocks(ss[..n])), After(r, Blocks(ss)), ss);
    }
  }

  lemma OneMoreShown(m: Reading, t: Reading, ss: seq<seq<Row>>)
    requires ss != [] && (forall i :: 0 <= i < |ss| ==> ss[i] != []) && Shows(m, ss[..|ss| - 1])
    requires var n := |ss| - 1;
             Between(t) && |t.scenarios| == n + 1 && t.scenarios[..n] == m.scenarios && Shown(t.scenarios[n], ss[n])
    ensures Shows(t, ss)
  {
    var n := |ss| - 1;
    forall i | 0 <= i < n
      ensures Shown(t.scenarios[i], ss[i])
    {
      assert t.scenarios[i] == t.scenarios[..n][i] == m.scenarios[i] && ss[..n][i] == ss[i];
    }
  }

  /** From r these scenarios have been read, and nothing else. */
  ghost predicate Adds(r: Reading, m: Reading, xs: seq<Scenario>)
  {
    m == r.(scenarios := xs, inSteps := r.inSteps || xs != [])
  }

  lemma OneMoreAdded(r: Reading, m: Reading, t: Reading, xs: seq<Scenario>, x: Scenario)
    requires Between(r) && Adds(r, m, xs) && t == m.(scenarios := m.scenarios + [x], inSteps := true)
    ensures Adds(r, t, xs + [x])
  {
  }

  lemma {:induction false} QuietBlocksRead(r: Reading, ss: seq<seq<Row>>)
    requires Between(r) && r.scenarios == [] && AllReadable(ss) && QuietNames(ss)
    ensures Adds(r, After(r, Blocks(ss)), RenderedScenarios(ss)) && Ends(Blocks(ss))
  {
    if ss == [] {
      assert After(r, "") == r;
    } else {
      var n := |ss| - 1;
      QuietBlocksRead(r, ss[..n]);
      AfterBlock(After(r, Blocks(ss[..n])), r, ss[n], RenderedScenarios(ss[..n]));
      AfterBoth(r, Blocks(ss[..n]), Block(ss[n]));
    }
  }

  lemma AfterBlock(m: Reading, r: Reading, s: seq<Row>, xs: seq<Scenario>)
    requires Between(r) && Adds(r, m, xs) && Readable(s) && QuietName(s)
    ensures Adds(r, After(m, Block(s)), xs + [RenderedScenario(s)]) && Ends(Block(s))
  {
    QuietBlockRead(m, s);
    OneMoreAdded(r, m, After(m, Block(s)), xs, RenderedScenario(s));
  }

  /** Titles and notice are text on one line, and the notice does not choose a language. */
  ghost predicate LayoutOk(c: Layout)
  {
    && '\n' !in c.notice && !HasPrefix(TrimLeft(c.notice, IsSpace), "language")
    && forall f :: f in c.titles ==> '\n' !in c.titles[f]
  }

  const OPEN := START.(started := true)

  lemma NoticeIs(notice: string)
    requires !HasPrefix(TrimLeft(notice, IsSpace), "language")
    ensures Classify("# " + notice) == Comment
  {
    var t := "# " + notice;
    assert t[1..] == " " + notice && (" " + notice)[1..] == notice;
  }

  lemma FeatureLineIs(title: string)
    ensures Classify("Feature: " + title) == FeatureLine
  {
    var t := "Feature: " + title;
    assert t[0] == 'F' && "Feature:" <= t;
  }

  lemma AnnexLineIs(t: string)
    requires |t| > 2 && t[0] == 'A' && t[1] == 'n' && t[2] == 'n'
    ensures ClassifyTrimmed(t) == FreeLine
  {
    LeadingNone(t, STEP_KEYWORDS);
    forall i | 0 <= i < |STEP_KEYWORDS|
      ensures !HasPrefix(t, STEP_KEYWORDS[i] + " ")
    {
      assert i == 3 ==> (STEP_KEYWORDS[i] + " ")[2] == 'd';
      assert i != 3 ==> (STEP_KEYWORDS[i] + " ")[0] != 'A';
    }
    forall i | 0 <= i < |OTHER_KEYWORDS|
      ensures !HasPrefix(t, OTHER_KEYWORDS[i])
    {
      assert i == 8 ==> OTHER_KEYWORDS[i][1] == 'b';
      assert i != 8 ==> OTHER_KEYWORDS[i][0] != 'A';
    }
  }

  function Description(title: string): string
  {
    "  Annex A rows for " + title + ", worded exactly as in the Annex."
  }

  lemma DescriptionIs(title: string)
    ensures Classify(Description(title)) == FreeLine
  {
    var words, rest := "Annex A rows for ", title + ", worded exactly as in the Annex.";
    assert Description(title) == "  " + (words + rest);
    assert words[0] == 'A' && words[1] == 'n' && words[2] == 'n';
    AnnexStarts(words, rest);
    ClassifyIndented("  ", words + rest);
    AnnexLineIs(words + rest);
  }

  lemma AnnexStarts(words: string, rest: string)
    requires |words| > 2
    ensures var t := words + rest; |t| > 2 && t[0] == words[0] && t[1] == words[1] && t[2] == words[2]
  {
  }

  lemma HeadingRead(c: Layout, family: string)
    requires LayoutOk(c)
    ensures After(START, Heading(c, family)) == OPEN && Ends(Heading(c, family))
  {
    var title := Title(c, family);
    var a, b, d := "# " + c.notice, "Feature: " + title, Description(title);
    assert '\n' !in a && '\n' !in b && '\n' !in d;
    NoticeIs(c.notice);
    FeatureLineIs(title);
    DescriptionIs(title);
    ThreeLinesRead(a, b, d);
  }

  lemma ThreeLinesRead(a: string, b: string, d: string)
    requires '\n' !in a && '\n' !in b && '\n' !in d
    requires Classify(a) == Comment && Classify(b) == FeatureLine && Classify(d) == FreeLine
    ensures After(START, Ended(a) + Ended(b) + Ended(d)) == OPEN && Ends(Ended(a) + Ended(b) + Ended(d))
  {
    AfterEnded(START, a);
    AfterEnded(START, b);
    AfterEnded(OPEN, d);
    AfterBoth(START, Ended(a), Ended(b));
    AfterBoth(START, Ended(a) + Ended(b), Ended(d));
  }

  /** Reading undoes rendering: the text of a generated file reads as the tree that is meant. */
  lemma ReadingUndoesRendering(c: Layout, ss: seq<seq<Row>>)
    requires LayoutOk(c) && FamilyGroup(ss) && AllReadable(ss) && QuietNames(ss)
    ensures Read(RenderedText(c, ss)) == Some(RenderedFile(c, ss).doc)
  {
    var heading := Heading(c, ss[0][0].family);
    HeadingRead(c, ss[0][0].family);
    QuietBlocksRead(OPEN, ss);
    AfterBoth(START, heading, Blocks(ss));
    ReadIsAfter(heading + Blocks(ss));
  }

  /** With steps in the names the text does not parse, or reads as the scenarios with these steps. */
  lemma RenderedShows(c: Layout, ss: seq<seq<Row>>)
    requires LayoutOk(c) && FamilyGroup(ss) && AllReadable(ss) && PlainNames(ss)
    ensures var r := After(OPEN, Blocks(ss));
            Shows(r, ss) && Read(RenderedText(c, ss)) == Some(if r.bad then Unparsable else Feature([], AsChildren(r.scenarios)))
  {
    var heading := Heading(c, ss[0][0].family);
    HeadingRead(c, ss[0][0].family);
    BlocksShow(OPEN, ss);
    AfterBoth(START, heading, Blocks(ss));
    ReadIsAfter(heading + Blocks(ss));
  }

  // ---- The generated scenarios ---------------------------------------------------------------------

  /** Every scenario of a generated family satisfies p. */
  ghost predicate EveryGenerated(c: Layout, rows: seq<Row>, p: seq<Row> -> bool)
  {
    forall i :: 0 <= i < |Scenarios(rows)| && Scenarios(rows)[i] != [] && Scenarios(rows)[i][0].family !in c.handWritten ==>
      p(Scenarios(rows)[i])
  }

  /** No further line of a generated scenario's name is more than description. */
  ghost predicate AllQuiet(c: Layout, a: Annex)
  {
    EveryGenerated(c, a.rows, QuietName)
  }

  /** The further lines of the generated scenarios' names are blank, description or steps. */
  ghost predicate AllPlain(c: Layout, a: Annex)
  {
    EveryGenerated(c, a.rows, PlainName)
  }

  ghost predicate FamiliesSatisfy(c: Layout, fs: seq<seq<seq<Row>>>, p: seq<Row> -> bool)
  {
    forall j :: 0 <= j < |fs| && Generated(c, fs[j]) ==> forall i :: 0 <= i < |fs[j]| ==> p(fs[j][i])
  }

  /** What holds of every generated scenario holds in every generated family, and the other way round. */
  lemma EveryGeneratedIff(c: Layout, rows: seq<Row>, p: seq<Row> -> bool)
    ensures EveryGenerated(c, rows, p) <==> FamiliesSatisfy(c, ByFamily(rows), p)
  {
    var ss, fs := Scenarios(rows), ByFamily(rows);
    GroupedOk(rows, ShareKey);
    GroupedOk(ss, Family);
    assert forall i :: 0 <= i < |ss| ==> GroupOk(ss[i], ShareKey);
    if EveryGenerated(c, rows, p) {
      forall j, i | 0 <= j < |fs| && Generated(c, fs[j]) && 0 <= i < |fs[j]|
        ensures p(fs[j][i])
      {
        GroupedFrom(ss, Family, j, i);
        assert GroupOk(fs[j], Family) && Family(fs[j][i]) == Family(fs[j][0]);
        var k :| 0 <= k < |ss| && ss[k] == fs[j][i];
      }
    }
    if FamiliesSatisfy(c, fs, p) {
      forall k | 0 <= k < |ss| && ss[k] != [] && ss[k][0].family !in c.handWritten
        ensures p(ss[k])
      {
        InSomeFamily(c, rows, k);
      }
    }
  }

  /** A generated scenario is in a generated family. */
  lemma InSomeFamily(c: Layout, rows: seq<Row>, k: nat)
    requires k < |Scenarios(rows)| && Scenarios(rows)[k] != [] && Scenarios(rows)[k][0].family !in c.handWritten
    ensures exists j, i :: 0 <= j < |ByFamily(rows)| && 0 <= i < |ByFamily(rows)[j]| && Generated(c, ByFamily(rows)[j])
                           && ByFamily(rows)[j][i] == Scenarios(rows)[k]
  {
    var ss, fs := Scenarios(rows), ByFamily(rows);
    GroupedPartitions(ss, Family);
    assert ss[k] in multiset(ss);
    assert ss[k] in Flat(fs);
    InFlat(fs, ss[k]);
    var j :| 0 <= j < |fs| && ss[k] in fs[j];
    var i :| 0 <= i < |fs[j]| && fs[j][i] == ss[k];
    GroupedOk(ss, Family);
    assert GroupOk(fs[j], Family) && Family(fs[j][i]) == Family(fs[j][0]);
    GroupedOk(rows, ShareKey);
    forall m | 0 <= m < |fs[j]|
      ensures fs[j][m] != []
    {
      GroupedFrom(ss, Family, j, m);
    }
  }

  lemma ScenarioReadable(c: Layout, rows: seq<Row>, s: seq<Row>)
    requires RowsOk(c, rows) && s != [] && forall k :: 0 <= k < |s| ==> s[k] in rows
    ensures Readable(s)
  {
    forall k | 0 <= k < |s|
      ensures RowOk(c, s[k])
    {
      assert s[k] in rows;
    }
  }

  lemma FamiliesReadable(c: Layout, a: Annex, j: nat)
    requires Valid(c, a) && j < |ByFamily(a.rows)|
    ensures AllReadable(ByFamily(a.rows)[j])
  {
    var ss := ByFamily(a.rows)[j];
    GroupedOk(a.rows, ShareKey);
    forall i | 0 <= i < |ss|
      ensures Readable(ss[i])
    {
      GroupedFrom(Scenarios(a.rows), Family, j, i);
      ScenariosOwn(c, a.rows, ss[i]);
      ScenarioReadable(c, a.rows, ss[i]);
    }
  }

  // ---- The feature check on the text ---------------------------------------------------------------

  /** Every file uses only what the reading covers. */
  ghost predicate Covered(texts: seq<TextFile>)
  {
    forall f :: f in texts ==> Read(f.text).Some?
  }

  function Tree(f: TextFile): File
  {
    File(f.path, match Read(f.text) case Some(doc) => doc case None => Unparsable)
  }

  /** The files as the feature check parses them. */
  function Trees(texts: seq<TextFile>): seq<File>
  {
    if texts == [] then [] else Trees(texts[..|texts| - 1]) + [Tree(texts[|texts| - 1])]
  }

  lemma {:induction false} TreesAreFlatMap(texts: seq<TextFile>, f: TextFile -> seq<File>)
    requires forall x :: f(x) == [Tree(x)]
    ensures Trees(texts) == FlatMap(texts, f)
  {
    if texts != [] {
      TreesAreFlatMap(texts[..|texts| - 1], f);
    }
  }

  lemma TreesPermute(texts: seq<TextFile>, others: seq<TextFile>)
    requires multiset(texts) == multiset(others)
    ensures multiset(Trees(texts)) == multiset(Trees(others)) && (Covered(others) ==> Covered(texts))
  {
    var f := (x: TextFile) => [Tree(x)];
    TreesAreFlatMap(texts, f);
    TreesAreFlatMap(others, f);
    FlatMapPermutes(texts, others, f);
    forall x | x in texts
      ensures x in others
    {
      assert x in multiset(texts);
    }
  }

  /** The family's text, if it is generated, reads as its tree. */
  ghost predicate TextReads(c: Layout, ss: seq<seq<Row>>)
  {
    Generated(c, ss) ==> Tree(RenderedTextFile(c, ss)) == RenderedFile(c, ss) && Read(RenderedText(c, ss)).Some?
  }

  lemma FamilyReads(c: Layout, ss: seq<seq<Row>>)
    requires LayoutOk(c) && AllReadable(ss) && QuietNames(ss)
    ensures TextReads(c, ss)
  {
    if Generated(c, ss) {
      ReadingUndoesRendering(c, ss);
    }
  }

  lemma {:induction false} TextsRead(c: Layout, fs: seq<seq<seq<Row>>>)
    requires forall j :: 0 <= j < |fs| ==> TextReads(c, fs[j])
    ensures Trees(RenderedTexts(c, fs)) == RenderedFiles(c, fs) && Covered(RenderedTexts(c, fs))
  {
    if fs != [] {
      var n := |fs| - 1;
      TextsRead(c, fs[..n]);
      assert TextReads(c, fs[n]);
      if Generated(c, fs[n]) {
        OneMoreTree(RenderedTexts(c, fs[..n]), RenderedTextFile(c, fs[n]), RenderedFile(c, fs[n]));
      } else {
        assert RenderedTexts(c, fs) == RenderedTexts(c, fs[..n]) && RenderedFiles(c, fs) == RenderedFiles(c, fs[..n]);
      }
    }
  }

  lemma OneMoreTree(texts: seq<TextFile>, f: TextFile, g: File)
    requires Covered(texts) && Read(f.text).Some? && Tree(f) == g
    ensures Trees(texts + [f]) == Trees(texts) + [g] && Covered(texts + [f])
  {
    assert (texts + [f])[..|texts|] == texts;
  }

  /** For a valid annex whose names hold no more than description after their first lines, the feature check accepts
      the generated files as it parses them, in whatever order it reads them: the only thing it reports is that the
      rows of hand-written families, which are not generated, have no scenario. */
  lemma GeneratorSatisfiesChecker(c: Layout, a: Annex, texts: seq<TextFile>)
    requires Valid(c, a) && LayoutOk(c) && AllQuiet(c, a) && multiset(texts) == multiset(Texts(c, a))
    ensures Covered(texts) && Problems(c, a, Trees(texts)) == Missing(c, a.rows)
  {
    var fs := ByFamily(a.rows);
    EveryGeneratedIff(c, a.rows, QuietName);
    forall j | 0 <= j < |fs|
      ensures TextReads(c, fs[j])
    {
      if Generated(c, fs[j]) {
        FamiliesReadable(c, a, j);
        FamilyReads(c, fs[j]);
      }
    }
    TextsRead(c, fs);
    TreesPermute(texts, Texts(c, a));
    TreesSatisfyChecker(c, a, Trees(texts));
  }

  // ---- Names with line breaks ----------------------------------------------------------------------

  lemma {:induction false} JoinFree(parts: seq<string>, sep: string, x: char)
    requires x !in sep && forall i :: 0 <= i < |parts| ==> x !in parts[i]
    ensures x !in Join(parts, sep)
  {
    if |parts| > 1 {
      JoinFree(parts[1..], sep, x);
    }
  }

  lemma {:induction false} RequirementsFree(s: seq<Row>, x: char)
    requires forall k :: 0 <= k < |s| ==> x !in s[k].requirement
    ensures forall i :: 0 <= i < |Requirements(s)| ==> x !in Requirements(s)[i]
  {
    if s != [] {
      RequirementsFree(s[..|s| - 1], x);
    }
  }

  lemma OneLineName(s: seq<Row>)
    requires forall k :: 0 <= k < |s| ==> '\n' !in s[k].requirement
    ensures MoreLines(s) == []
  {
    RequirementsFree(s, '\n');
    JoinFree(Requirements(s), " / ", '\n');
    SplitFree(ScenarioName(s), '\n');
  }

  /** Requirements on one line each make names of one line. */
  lemma OneLineRequirements(c: Layout, a: Annex)
    requires forall k :: 0 <= k < |a.rows| ==> '\n' !in a.rows[k].requirement
    ensures AllQuiet(c, a)
  {
    var p: seq<Row> -> bool := QuietName;
    forall i | 0 <= i < |Scenarios(a.rows)|
      ensures p(Scenarios(a.rows)[i])
    {
      var s := Scenarios(a.rows)[i];
      forall k | 0 <= k < |s|
        ensures '\n' !in s[k].requirement
      {
        GroupedFrom(a.rows, ShareKey, i, k);
      }
      OneLineName(s);
    }
  }

  lemma {:induction false} StandingAt(xs: seq<Scenario>)
    ensures |Standing(xs)| == |xs| && forall i :: 0 <= i < |xs| ==> Standing(xs)[i] == Located(xs[i], [], false)
  {
    if xs != [] {
      StandingAt(xs[..|xs| - 1]);
    }
  }

  lemma {:induction false} ScenariosProblemsHold(c: Layout, byId: map<string, Row>, path: string, ls: seq<Located>, j: nat, p: Problem)
    requires j < |ls| && p in ScenarioProblems(c, byId, path, ls[j])
    ensures p in ScenariosProblems(c, byId, path, ls)
  {
    if j < |ls| - 1 {
      ScenariosProblemsHold(c, byId, path, ls[..|ls| - 1], j, p);
    }
  }

  lemma {:induction false} FilesProblemsHold(c: Layout, byId: map<string, Row>, files: seq<File>, f: File, p: Problem)
    requires f in files && p in FileProblems(c, byId, f)
    ensures p in FilesProblems(c, byId, files)
  {
    if f != files[|files| - 1] {
      FilesProblemsHold(c, byId, files[..|files| - 1], f, p);
    }
  }

  /** A scenario tagged with rows and with more than three steps is reported. */
  lemma TooManySteps(c: Layout, byId: map<string, Row>, path: string, x: Scenario, s: seq<Row>)
    requires s != [] && Own(byId, s) && x.tags == Tags(s) && |x.steps| > 3
    ensures WrongStepCount(path) in ScenarioProblems(c, byId, path, Located(x, [], false))
  {
    TagsRead(byId, path, s);
    assert BodyProblems(path, x.steps, s[0]) == [WrongStepCount(path)];
  }

  /** The check's reports of a file that its names have spoiled. */
  predicate Spoiled(p: Problem)
  {
    p.CannotParse? || p.WrongStepCount?
  }

  lemma NoisyFile(c: Layout, byId: map<string, Row>, ss: seq<seq<Row>>, i: nat) returns (p: Problem)
    requires LayoutOk(c) && FamilyGroup(ss) && AllReadable(ss) && PlainNames(ss)
    requires i < |ss| && Own(byId, ss[i]) && !QuietName(ss[i])
    ensures Spoiled(p) && p in FileProblems(c, byId, Tree(RenderedTextFile(c, ss)))
  {
    var r, f := After(OPEN, Blocks(ss)), Tree(RenderedTextFile(c, ss));
    RenderedShows(c, ss);
    StepsCounted(MoreLines(ss[i]));
    p := ShownNoisy(c, byId, f, r, ss, i);
  }

  lemma ShownNoisy(c: Layout, byId: map<string, Row>, f: File, r: Reading, ss: seq<seq<Row>>, i: nat) returns (p: Problem)
    requires (forall k :: 0 <= k < |ss| ==> ss[k] != []) && Shows(r, ss) && i < |ss| && Own(byId, ss[i]) && CountSteps(MoreLines(ss[i])) > 0
    requires f.doc == if r.bad then Unparsable else Feature([], AsChildren(r.scenarios))
    ensures Spoiled(p) && p in FileProblems(c, byId, f)
  {
    if r.bad {
      p := CannotParse(f.path);
    } else {
      p := WrongStepCount(f.path);
      assert !HasBackground(f.doc.children);
      PlacedChildren(f.path, r.scenarios);
      StandingAt(r.scenarios);
      TooManySteps(c, byId, f.path, r.scenarios[i], ss[i]);
      ScenariosProblemsHold(c, byId, f.path, LocatedIn(f), i, p);
    }
  }

  lemma {:induction false} MissingKind(c: Layout, rows: seq<Row>)
    ensures forall p :: p in Missing(c, rows) ==> p.NoScenario?
  {
    if rows != [] {
      MissingKind(c, rows[..|rows| - 1]);
    }
  }

  /** The generated files satisfy p if those of the generated families do, and all of these are there. */
  lemma {:induction false} EveryFile(c: Layout, fs: seq<seq<seq<Row>>>, p: TextFile -> bool)
    requires forall j :: 0 <= j < |fs| && Generated(c, fs[j]) ==> p(RenderedTextFile(c, fs[j]))
    ensures forall f :: f in RenderedTexts(c, fs) ==> p(f)
    ensures forall j :: 0 <= j < |fs| && Generated(c, fs[j]) ==> RenderedTextFile(c, fs[j]) in RenderedTexts(c, fs)
  {
    if fs != [] {
      EveryFile(c, fs[..|fs| - 1], p);
    }
  }

  lemma {:induction false} TreeIn(texts: seq<TextFile>, f: TextFile)
    requires f in texts
    ensures Tree(f) in Trees(texts)
  {
    if f != texts[|texts| - 1] {
      TreeIn(texts[..|texts| - 1], f);
    }
  }

  lemma PlainCovered(c: Layout, a: Annex, texts: seq<TextFile>)
    requires Valid(c, a) && LayoutOk(c) && AllPlain(c, a) && multiset(texts) == multiset(Texts(c, a))
    ensures Covered(texts)
    ensures forall j :: 0 <= j < |ByFamily(a.rows)| && Generated(c, ByFamily(a.rows)[j]) ==>
              PlainNames(ByFamily(a.rows)[j]) && Tree(RenderedTextFile(c, ByFamily(a.rows)[j])) in Trees(texts)
  {
    var fs := ByFamily(a.rows);
    EveryGeneratedIff(c, a.rows, PlainName);
    var covered := (f: TextFile) => Read(f.text).Some?;
    forall j | 0 <= j < |fs| && Generated(c, fs[j])
      ensures PlainNames(fs[j]) && covered(RenderedTextFile(c, fs[j]))
    {
      FamiliesReadable(c, a, j);
      RenderedShows(c, fs[j]);
    }
    EveryFile(c, fs, covered);
    assert forall f :: f in Texts(c, a) ==> covered(f);
    TreesPermute(texts, Texts(c, a));
    forall j | 0 <= j < |fs| && Generated(c, fs[j])
      ensures Tree(RenderedTextFile(c, fs[j])) in Trees(texts)
    {
      assert RenderedTextFile(c, fs[j]) in multiset(Texts(c, a));
      TreeIn(texts, RenderedTextFile(c, fs[j]));
    }
  }

  /** A step in a name is reported. */
  lemma NoisyNameReported(c: Layout, a: Annex, texts: seq<TextFile>) returns (p: Problem)
    requires Valid(c, a) && LayoutOk(c) && AllPlain(c, a) && !AllQuiet(c, a) && multiset(texts) == multiset(Texts(c, a))
    ensures Covered(texts) && Spoiled(p) && p in Problems(c, a, Trees(texts))
  {
    var fs := ByFamily(a.rows);
    PlainCovered(c, a, texts);
    EveryGeneratedIff(c, a.rows, QuietName);
    var j :| 0 <= j < |fs| && Generated(c, fs[j]) && !forall i :: 0 <= i < |fs[j]| ==> QuietName(fs[j][i]);
    var i :| 0 <= i < |fs[j]| && !QuietName(fs[j][i]);
    FamiliesReadable(c, a, j);
    FamiliesGood(c, a, j);
    assert Own(ById(a.rows), fs[j][i]);
    p := NoisyFile(c, ById(a.rows), fs[j], i);
    FilesProblemsHold(c, ById(a.rows), Trees(texts), Tree(RenderedTextFile(c, fs[j])), p);
  }

  /** When the further lines of the names are blank, description or steps, the feature check accepts the generated
      files exactly if none of them is a step. */
  lemma GeneratedAcceptedIff(c: Layout, a: Annex, texts: seq<TextFile>)
    requires Valid(c, a) && LayoutOk(c) && AllPlain(c, a) && multiset(texts) == multiset(Texts(c, a))
    ensures Covered(texts) && (Problems(c, a, Trees(texts)) == Missing(c, a.rows) <==> AllQuiet(c, a))
  {
    PlainCovered(c, a, texts);
    if AllQuiet(c, a) {
      GeneratorSatisfiesChecker(c, a, texts);
    } else {
      var p := NoisyNameReported(c, a, texts);
      MissingKind(c, a.rows);
    }
  }

  // ---- A valid annex whose files are not accepted --------------------------------------------------

  /** A row on its own is a valid annex. */
  lemma OneRowValid(c: Layout, a: Annex, r: Row)
    requires a.source != "" && |a.sha256| == 64 && a.rows == [r] && RowOk(c, r) && r.sharedExecution == []
    ensures Valid(c, a) && Scenarios(a.rows) == [[r]]
  {
    OneScenario(r);
    assert SharedOk([r]);
  }

  lemma OneScenario(r: Row)
    requires r.sharedExecution == []
    ensures Scenarios([r]) == [[r]]
  {
    assert Grouped([r][..0], ShareKey) == [];
  }

  lemma TwoLineName(r: Row, x: string, y: string)
    requires r.requirement == x + ['\n'] + y && '\n' !in x && '\n' !in y
    ensures MoreLines([r]) == [y]
  {
    assert Requirements([r][..0]) == [];
    assert Requirements([r]) == [r.requirement] && ScenarioName([r]) == r.requirement;
    SplitConcat(x, '\n', y);
    SplitFree(x, '\n');
    SplitFree(y, '\n');
  }

  lemma StepName(s: seq<Row>, y: string)
    requires MoreLines(s) == [y] && IsStep(y)
    ensures PlainName(s) && !QuietName(s)
  {
    assert MoreLines(s)[0] == y && !Quiet(y);
  }

  lemma OnlyScenario(c: Layout, rows: seq<Row>, s: seq<Row>, p: seq<Row> -> bool)
    requires Scenarios(rows) == [s] && s != [] && s[0].family !in c.handWritten
    ensures EveryGenerated(c, rows, p) <==> p(s)
  {
    assert Scenarios(rows)[0] == s;
  }

  /** Whatever the row: with a step on a second line of its requirement the annex is valid and its file is reported. */
  lemma StepInRequirementReported(c: Layout, a: Annex, r: Row, x: string, y: string) returns (p: Problem)
    requires LayoutOk(c) && a.source != "" && |a.sha256| == 64 && a.rows == [r]
    requires RowOk(c, r) && r.sharedExecution == [] && r.family !in c.handWritten
    requires r.requirement == x + ['\n'] + y && '\n' !in x && '\n' !in y && IsStep(y)
    ensures Valid(c, a) && Missing(c, a.rows) == []
    ensures Covered(Texts(c, a)) && Spoiled(p) && p in Problems(c, a, Trees(Texts(c, a)))
  {
    OneRowValid(c, a, r);
    TwoLineName(r, x, y);
    StepName([r], y);
    NothingMissing(c, a.rows);
    OnlyScenario(c, a.rows, [r], PlainName);
    OnlyScenario(c, a.rows, [r], QuietName);
    p := NoisyNameReported(c, a, Texts(c, a));
  }

  function Sample(family: string, id: string, testId: string, path: string, requirement: string): Row
  {
    Row(id, testId, requirement, path, [], Rebuilt("a", "b", "c"), "a", "b", "c", family, Go, Implemented, false)
  }

  lemma SampleOk(c: Layout, family: string, id: string, testId: string, path: string, requirement: string)
    requires family in c.titles && RowId(id) && TestId(testId) && EvidencePath(path) && !HasPrefix(path, "evidence/shared/")
    ensures RowOk(c, Sample(family, id, testId, path, requirement))
  {
    assert forall s :: s in ["a", "b", "c"] ==> TrimSpace(s) == s;
  }

  lemma SampleIdentifiers()
    ensures RowId("ZT-01") && TestId("BDD-ZT-001")
    ensures EvidencePath("evidence/bdd-zt-001/") && !HasPrefix("evidence/bdd-zt-001/", "evidence/shared/")
  {
    var t := "evidence/bdd-zt-001";
    assert "evidence/bdd-zt-001/"[..19] == t && "ZT-01"[3..] == "01" && "BDD-ZT-001"[7..] == "001";
    assert t[|"evidence/bdd-"|..] == "zt-001" && Suffixed("zt-001", 1);
    assert "evidence/bdd-zt-001/"[9] == 'b' && "evidence/shared/"[9] == 's';
  }

  lemma SampleRow(c: Layout, family: string, requirement: string) returns (r: Row)
    requires family in c.titles
    ensures RowOk(c, r) && r.family == family && r.requirement == requirement && r.sharedExecution == []
  {
    SampleIdentifiers();
    SampleOk(c, family, "ZT-01", "BDD-ZT-001", "evidence/bdd-zt-001/", requirement);
    r := Sample(family, "ZT-01", "BDD-ZT-001", "evidence/bdd-zt-001/", requirement);
  }

  /** Whatever the layout: a valid annex whose own generated files the feature check does not accept.  Its one
      requirement reads "x", and "    Given y" on a second line. */
  lemma GeneratorFailsChecker(c: Layout, family: string) returns (a: Annex, p: Problem)
    requires LayoutOk(c) && family in c.titles && family !in c.handWritten
    ensures Valid(c, a) && |a.rows| == 1 && a.rows[0].requirement == "x\n    Given y"
    ensures Covered(Texts(c, a)) && Missing(c, a.rows) == [] && Spoiled(p) && p in Problems(c, a, Trees(Texts(c, a)))
  {
    var y := "    " + ("Given" + " " + "y");
    assert "x" + ['\n'] + y == "x\n    Given y";
    a, p := SampleAnnex(c, family, "x\n    Given y", y);
  }

  lemma SampleAnnex(c: Layout, family: string, requirement: string, y: string) returns (a: Annex, p: Problem)
    requires LayoutOk(c) && family in c.titles && family !in c.handWritten
    requires requirement == "x" + ['\n'] + y && y == "    " + ("Given" + " " + "y")
    ensures Valid(c, a) && |a.rows| == 1 && a.rows[0].requirement == requirement
    ensures Covered(Texts(c, a)) && Missing(c, a.rows) == [] && Spoiled(p) && p in Problems(c, a, Trees(Texts(c, a)))
  {
    SampleStep(y);
    var r := SampleRow(c, family, requirement);
    a := Annex("annex", seq(64, _ => '0'), [r]);
    p := StepInRequirementReported(c, a, r, "x", y);
  }

  lemma SampleStep(y: string)
    requires y == "    " + ("Given" + " " + "y")
    ensures IsStep(y) && '\n' !in y
  {
    StepLineIs("Given", "y");
  }
}
