/**
 Feature files: their syntax trees, and the reading of the part of Gherkin that the generated files use, line by
 line as its parser goes: comments, tags, one feature, scenarios and their steps, and free description.
 */
module Gherkin {
  import opened Text

  datatype Step = Step(keyword: string, text: string, plain: bool)

  /** `examples` holds the tags of each examples block. */
  datatype Scenario = Scenario(name: string, tags: seq<string>, steps: seq<Step>, examples: seq<seq<string>>)

  datatype RuleChild = RuleScenario(scenario: Scenario) | RuleBackground

  datatype Child = FeatureScenario(scenario: Scenario) | Background | Rule(tags: seq<string>, children: seq<RuleChild>)

  datatype Document = Unparsable | NoFeature | Feature(tags: seq<string>, children: seq<Child>)

  // ---- Lines ---------------------------------------------------------------------------------------

  datatype Line =
    | Blank
    | Comment
    | TagLine(tags: seq<string>)
    | FeatureLine
    | ScenarioLine(name: string)
    | StepLine(keyword: string, text: string)
    | FreeLine
    | OtherKeyword           // a construct this reading does not cover

  const STEP_KEYWORDS: seq<string> := ["Given", "When", "Then", "And", "But", "*"]

  const OTHER_KEYWORDS: seq<string> :=
    ["Background:", "Rule:", "Example:", "Examples:", "Scenarios:", "Scenario Outline:", "Scenario Template:",
     "Business Need:", "Ability:", "\"\"\"", "```", "|"]

  /** The first of the keywords that, with a space after it, starts the line. */
  function Leading(t: string, keywords: seq<string>): (r: Option<string>)
    ensures r.Some? ==> r.value in keywords && HasPrefix(t, r.value + " ")
  {
    if keywords == [] then None else if HasPrefix(t, keywords[0] + " ") then Some(keywords[0]) else Leading(t, keywords[1..])
  }

  predicate StartsWithAny(t: string, starts: seq<string>)
  {
    exists i :: 0 <= i < |starts| && HasPrefix(t, starts[i])
  }

  lemma {:induction false} LeadingNone(t: string, keywords: seq<string>)
    ensures Leading(t, keywords).None? <==> forall i :: 0 <= i < |keywords| ==> !HasPrefix(t, keywords[i] + " ")
  {
    if keywords != [] && !HasPrefix(t, keywords[0] + " ") {
      LeadingNone(t, keywords[1..]);
      assert forall i :: 0 < i < |keywords| ==> keywords[i] == keywords[1..][i - 1];
    }
  }

  /** A line without the white space before it. */
  function ClassifyTrimmed(t: string): Line
  {
    if t == "" then Blank
    else if t[0] == '#' then if HasPrefix(TrimLeft(t[1..], IsSpace), "language") then OtherKeyword else Comment
    else if t[0] == '@' then TagLine(Split(TrimSpace(t), ' '))
    else if HasPrefix(t, "Feature:") then FeatureLine
    else if HasPrefix(t, "Scenario:") then ScenarioLine(TrimSpace(t[9..]))
    else ClassifyStep(t, Leading(t, STEP_KEYWORDS))
  }

  function ClassifyStep(t: string, keyword: Option<string>): Line
    requires keyword.Some? ==> |keyword.value| <= |t|
  {
    if keyword.Some? then StepLine(keyword.value, TrimSpace(t[|keyword.value|..]))
    else if StartsWithAny(t, OTHER_KEYWORDS) then OtherKeyword
    else FreeLine
  }

  /** A step is a line that starts with a step keyword and a space. */
  lemma StepLineIff(t: string)
    ensures ClassifyTrimmed(t).StepLine? <==>
              "Given " <= t || "When " <= t || "Then " <= t || "And " <= t || "But " <= t || "* " <= t
  {
    LeadingNone(t, STEP_KEYWORDS);
    forall i | 0 <= i < 6
      ensures STEP_KEYWORDS[i] + " " == ["Given ", "When ", "Then ", "And ", "But ", "* "][i]
    {
    }
    if "Given " <= t || "When " <= t || "Then " <= t || "And " <= t || "But " <= t || "* " <= t {
      assert t[0] != "#"[0] && t[0] != "@"[0] && t[0] != "Feature:"[0] && t[0] != "Scenario:"[0];
      var k := if "Given " <= t then 0 else if "When " <= t then 1 else if "Then " <= t then 2 else if "And " <= t then 3
               else if "But " <= t then 4 else 5;
      assert HasPrefix(t, STEP_KEYWORDS[k] + " ");
    }
  }

  function Classify(line: string): Line
  {
    ClassifyTrimmed(TrimLeft(line, IsSpace))
  }

  // ---- Reading -------------------------------------------------------------------------------------

  /** What has been read: `tags` are those waiting for what they belong to; `bad` says that the file does not
      parse, `beyond` that it uses a construct this reading does not cover. */
  datatype Reading = Reading(
    started: bool,
    featureTags: seq<string>,
    tags: seq<string>,
    scenarios: seq<Scenario>,
    inSteps: bool,
    bad: bool,
    beyond: bool)

  const START := Reading(false, [], [], [], false, false, false)

  function WithStep(s: Scenario, keyword: string, text: string): Scenario
  {
    s.(steps := s.steps + [Step(keyword, text, true)])
  }

  function ReadOne(r: Reading, l: Line): Reading
  {
    match l
    case Blank => r
    case Comment => r
    case TagLine(more) => r.(tags := r.tags + more)
    case FeatureLine => if r.started then r.(beyond := true) else r.(started := true, featureTags := r.tags, tags := [])
    case ScenarioLine(name) =>
      if !r.started then r.(bad := true)
      else r.(scenarios := r.scenarios + [Scenario(name, r.tags, [], [])], tags := [], inSteps := false)
    case StepLine(keyword, text) =>
      if !r.started || r.tags != [] then r.(bad := true)
      else if r.scenarios == [] then r
      else
        var n := |r.scenarios| - 1;
        r.(scenarios := r.scenarios[n := WithStep(r.scenarios[n], keyword, text)], inSteps := true)
    case FreeLine => if !r.started || r.tags != [] || r.inSteps then r.(bad := true) else r
    case OtherKeyword => r.(beyond := true)
  }

  function ReadLines(r: Reading, lines: seq<string>): Reading
  {
    if lines == [] then r else ReadOne(ReadLines(r, lines[..|lines| - 1]), Classify(lines[|lines| - 1]))
  }

  function AsChildren(scenarios: seq<Scenario>): seq<Child>
  {
    seq(|scenarios|, i requires 0 <= i < |scenarios| => FeatureScenario(scenarios[i]))
  }

  function Finished(r: Reading): Option<Document>
  {
    if r.beyond then None
    else if r.bad || r.tags != [] then Some(Unparsable)
    else if !r.started then Some(NoFeature)
    else Some(Feature(r.featureTags, AsChildren(r.scenarios)))
  }

  /** The syntax tree of a text, None if it is not covered. */
  function Read(text: string): Option<Document>
  {
    Finished(ReadLines(START, Split(text, '\n')))
  }

  lemma {:induction false} ReadLinesAppend(r: Reading, a: seq<string>, b: seq<string>)
    ensures ReadLines(r, a + b) == ReadLines(ReadLines(r, a), b)
  {
    if b == [] {
      assert a + b == a;
    } else {
      var n := |b| - 1;
      ReadLinesAppend(r, a, b[..n]);
      assert (a + b)[..|a + b| - 1] == a + b[..n] && (a + b)[|a + b| - 1] == b[n];
    }
  }

  lemma ReadLinesOne(r: Reading, line: string)
    ensures ReadLines(r, [line]) == ReadOne(r, Classify(line))
  {
    assert [line][..0] == [] && ReadLines(r, []) == r;
  }

  /** The method that reads: one line after the other. */
  method Parse(text: string) returns (doc: Option<Document>)
    ensures doc == Read(text)
  {
    var r, lines := START, Split(text, '\n');
    for i := 0 to |lines|
      invariant r == ReadLines(START, lines[..i])
    {
      assert lines[..i + 1][..i] == lines[..i];
      r := ReadOne(r, Classify(lines[i]));
    }
    assert lines[..|lines|] == lines;
    doc := Finished(r);
  }

  // ---- Lines after a scenario's own line -----------------------------------------------------------

  /** A line that changes nothing there: blank, or description. */
  predicate Quiet(line: string)
  {
    var l := Classify(line);
    l == Blank || l == FreeLine
  }

  predicate QuietOrStep(line: string)
  {
    Quiet(line) || IsStep(line)
  }

  predicate IsStep(line: string)
  {
    Classify(line).StepLine?
  }

  function CountIf(lines: seq<string>, p: string -> bool): nat
  {
    if lines == [] then 0 else CountIf(lines[..|lines| - 1], p) + (if p(lines[|lines| - 1]) then 1 else 0)
  }

  function CountSteps(lines: seq<string>): nat
  {
    CountIf(lines, IsStep)
  }

  /** In a scenario, with no tags waiting. */
  predicate InScenario(r: Reading)
  {
    r.started && r.tags == [] && !r.beyond && r.scenarios != []
  }

  /** r has become t: the same scenarios, but for `more` further steps in the last one. */
  predicate Continues(r: Reading, t: Reading, more: nat)
    requires r.scenarios != []
  {
    var n := |r.scenarios| - 1;
    && InScenario(t) && t.featureTags == r.featureTags && |t.scenarios| == n + 1 && t.scenarios[..n] == r.scenarios[..n]
    && t.scenarios[n] == r.scenarios[n].(steps := t.scenarios[n].steps)
    && |t.scenarios[n].steps| == |r.scenarios[n].steps| + more && (r.bad ==> t.bad)
  }

  lemma {:induction false} LinesContinue(r: Reading, lines: seq<string>)
    requires InScenario(r) && forall i :: 0 <= i < |lines| ==> QuietOrStep(lines[i])
    ensures Continues(r, ReadLines(r, lines), CountSteps(lines))
  {
    if lines != [] {
      var n := |lines| - 1;
      LinesContinue(r, lines[..n]);
      OneContinues(r, ReadLines(r, lines[..n]), CountSteps(lines[..n]), lines[n]);
    }
  }

  lemma OneContinues(r: Reading, m: Reading, more: nat, line: string)
    requires r.scenarios != [] && Continues(r, m, more) && QuietOrStep(line)
    ensures Continues(r, ReadOne(m, Classify(line)), more + if IsStep(line) then 1 else 0)
  {
  }

  lemma {:induction false} QuietLinesStay(r: Reading, lines: seq<string>)
    requires InScenario(r) && !r.inSteps && forall i :: 0 <= i < |lines| ==> Quiet(lines[i])
    ensures ReadLines(r, lines) == r && CountSteps(lines) == 0
  {
    if lines != [] {
      var n := |lines| - 1;
      QuietLinesStay(r, lines[..n]);
    }
  }

  lemma {:induction false} CountIfZero(lines: seq<string>, p: string -> bool)
    ensures CountIf(lines, p) == 0 <==> forall i :: 0 <= i < |lines| ==> !p(lines[i])
  {
    if lines != [] {
      CountIfZero(lines[..|lines| - 1], p);
    }
  }

  lemma StepsCounted(lines: seq<string>)
    requires forall i :: 0 <= i < |lines| ==> QuietOrStep(lines[i])
    ensures CountSteps(lines) == 0 <==> forall i :: 0 <= i < |lines| ==> Quiet(lines[i])
  {
    CountIfZero(lines, IsStep);
    forall i | 0 <= i < |lines|
      ensures Quiet(lines[i]) <==> !IsStep(lines[i])
    {
    }
  }
}
