/**
 The step patterns registered for clauses that are still pending: each is a regular expression that must
 match its clause and nothing else.  The patterns use only literals, escapes and anchors, so a reading of
 that fragment is enough to say what they match.
 */
module Patterns {
  import opened Text
  import opened Pack
  import opened PackValid

  /** The characters Go's `regexp.QuoteMeta` escapes, and those the JavaScript patterns escape. */
  const GO_META := "\\.+*?()|[]{}^$"
  const JS_META := "\\^$.|?*+()[]{}/"

  function Escape(text: string, meta: string): string
  {
    if text == [] then []
    else (if text[0] in meta then ['\\', text[0]] else [text[0]]) + Escape(text[1..], meta)
  }

  /** The one text that an unanchored pattern stands for, None if it is not a plain sequence of characters: an
      escaped metacharacter is itself, a bare one or any other escape is something else. */
  function Literal(p: string, meta: string): Option<string>
  {
    if p == [] then Some([])
    else if p[0] == '\\' then
      if |p| > 1 && p[1] in meta then Prepend(p[1], Literal(p[2..], meta)) else None
    else if p[0] in meta then None
    else Prepend(p[0], Literal(p[1..], meta))
  }

  function Prepend(c: char, s: Option<string>): Option<string>
  {
    if s.None? then None else Some([c] + s.value)
  }

  /** Unescaping undoes escaping, and nothing but the escaped text reads as the text: escaping is injective
      and leaves no bare metacharacter. */
  lemma {:induction false} LiteralIffEscape(p: string, text: string, meta: string)
    requires '\\' in meta
    ensures Literal(p, meta) == Some(text) <==> p == Escape(text, meta)
    decreases |p| + |text|
  {
    if p == [] {
    } else if p[0] == '\\' {
      if |p| > 1 && p[1] in meta && text != [] {
        LiteralIffEscape(p[2..], text[1..], meta);
        assert p == [p[0], p[1]] + p[2..];
        assert text == [text[0]] + text[1..];
        EscapeHead(text, meta);
      } else {
        EscapeHead(text, meta);
      }
    } else if text != [] {
      LiteralIffEscape(p[1..], text[1..], meta);
      assert p == [p[0]] + p[1..];
      assert text == [text[0]] + text[1..];
      EscapeHead(text, meta);
    }
  }

  lemma EscapeHead(text: string, meta: string)
    requires '\\' in meta
    ensures text != [] ==>
              var e := Escape(text, meta);
              if text[0] in meta then |e| > 1 && e[0] == '\\' && e[1] == text[0] && e[2..] == Escape(text[1..], meta)
              else e != [] && e[0] == text[0] && e[0] != '\\' && e[1..] == Escape(text[1..], meta)
  {
  }

  // ---- The patterns --------------------------------------------------------------------------------

  function GoPattern(text: string): string
  {
    "^" + Escape(text, GO_META) + "$"
  }

  function JsPatternOf(text: string): string
  {
    "/^" + Escape(text, JS_META) + "$/"
  }

  lemma {:induction false} EscapeAppend(a: string, c: char, meta: string)
    ensures Escape(a + [c], meta) == Escape(a, meta) + (if c in meta then ['\\', c] else [c])
  {
    if a == [] {
      assert (a + [c])[1..] == [];
    } else {
      EscapeAppend(a[1..], c, meta);
      assert (a + [c])[1..] == a[1..] + [c];
    }
  }

  method JsPattern(text: string) returns (p: string)
    ensures p == JsPatternOf(text)
  {
    p := "/^";
    for i := 0 to |text|
      invariant p == "/^" + Escape(text[..i], JS_META)
    {
      EscapeAppend(text[..i], text[i], JS_META);
      assert text[..i + 1] == text[..i] + [text[i]];
      if text[i] in JS_META {
        p := p + ['\\'];
      }
      p := p + [text[i]];
    }
    assert text[..|text|] == text;
    p := p + "$/";
  }

  predicate LineEnd(c: char)
  {
    c == '\n' || c == '\r' || c == '\U{2028}' || c == '\U{2029}'
  }

  /** The body of a JavaScript regular expression literal, after its opening slash: up to the first slash that
      is not escaped, which must be the end of the literal.  Without a bare bracket no class can hide a slash. */
  function Body(s: string): Option<string>
  {
    if s == [] || LineEnd(s[0]) || s[0] == '[' then None
    else if s[0] == '/' then (if |s| == 1 then Some([]) else None)
    else if s[0] == '\\' then
      if |s| > 1 && !LineEnd(s[1]) then Prepend(s[0], Prepend(s[1], Body(s[2..]))) else None
    else Prepend(s[0], Body(s[1..]))
  }

  /** The characters with a meaning of their own in the patterns of both languages, and a slash in a literal. */
  const SPECIAL := "^$\\.*+?()[]{}|"
  const SPECIAL_OR_SLASH := "^$\\.*+?()[]{}|/"

  /** Each escapes exactly the characters that are not plain. */
  lemma EscapesTheSpecial(c: char)
    ensures c in GO_META <==> c in SPECIAL
    ensures c in JS_META <==> c in SPECIAL_OR_SLASH
  {
    GoEscapesTheSpecial(c);
    assert JS_META[0] == SPECIAL_OR_SLASH[2] && JS_META[1] == SPECIAL_OR_SLASH[0] && JS_META[2] == SPECIAL_OR_SLASH[1] && JS_META[3] == SPECIAL_OR_SLASH[3] && JS_META[4] == SPECIAL_OR_SLASH[13] && JS_META[5] == SPECIAL_OR_SLASH[6] && JS_META[6] == SPECIAL_OR_SLASH[4] && JS_META[7] == SPECIAL_OR_SLASH[5] && JS_META[8] == SPECIAL_OR_SLASH[7] && JS_META[9] == SPECIAL_OR_SLASH[8] && JS_META[10] == SPECIAL_OR_SLASH[9] && JS_META[11] == SPECIAL_OR_SLASH[10] && JS_META[12] == SPECIAL_OR_SLASH[11] && JS_META[13] == SPECIAL_OR_SLASH[12] && JS_META[14] == SPECIAL_OR_SLASH[14];
    assert SPECIAL_OR_SLASH[0] == JS_META[1] && SPECIAL_OR_SLASH[1] == JS_META[2] && SPECIAL_OR_SLASH[2] == JS_META[0] && SPECIAL_OR_SLASH[3] == JS_META[3] && SPECIAL_OR_SLASH[4] == JS_META[6] && SPECIAL_OR_SLASH[5] == JS_META[7] && SPECIAL_OR_SLASH[6] == JS_META[5] && SPECIAL_OR_SLASH[7] == JS_META[8] && SPECIAL_OR_SLASH[8] == JS_META[9] && SPECIAL_OR_SLASH[9] == JS_META[10] && SPECIAL_OR_SLASH[10] == JS_META[11] && SPECIAL_OR_SLASH[11] == JS_META[12] && SPECIAL_OR_SLASH[12] == JS_META[13] && SPECIAL_OR_SLASH[13] == JS_META[4] && SPECIAL_OR_SLASH[14] == JS_META[14];
    if c in JS_META {
      var i :| 0 <= i < |JS_META| && JS_META[i] == c;
    }
    if c in SPECIAL_OR_SLASH {
      var i :| 0 <= i < |SPECIAL_OR_SLASH| && SPECIAL_OR_SLASH[i] == c;
    }
  }

  lemma GoEscapesTheSpecial(c: char)
    ensures c in GO_META <==> c in SPECIAL
  {
    assert GO_META[0] == SPECIAL[2] && GO_META[1] == SPECIAL[3] && GO_META[2] == SPECIAL[5] && GO_META[3] == SPECIAL[4] && GO_META[4] == SPECIAL[6] && GO_META[5] == SPECIAL[7] && GO_META[6] == SPECIAL[8] && GO_META[7] == SPECIAL[13] && GO_META[8] == SPECIAL[9] && GO_META[9] == SPECIAL[10] && GO_META[10] == SPECIAL[11] && GO_META[11] == SPECIAL[12] && GO_META[12] == SPECIAL[0] && GO_META[13] == SPECIAL[1];
    assert SPECIAL[0] == GO_META[12] && SPECIAL[1] == GO_META[13] && SPECIAL[2] == GO_META[0] && SPECIAL[3] == GO_META[1] && SPECIAL[4] == GO_META[3] && SPECIAL[5] == GO_META[2] && SPECIAL[6] == GO_META[4] && SPECIAL[7] == GO_META[5] && SPECIAL[8] == GO_META[6] && SPECIAL[9] == GO_META[8] && SPECIAL[10] == GO_META[9] && SPECIAL[11] == GO_META[10] && SPECIAL[12] == GO_META[11] && SPECIAL[13] == GO_META[7];
    if c in GO_META {
      var i :| 0 <= i < |GO_META| && GO_META[i] == c;
    }
    if c in SPECIAL {
      var i :| 0 <= i < |SPECIAL| && SPECIAL[i] == c;
    }
  }

  lemma {:induction false} EscapeSame(text: string, meta: string, other: string)
    requires forall c :: c in meta <==> c in other
    ensures Escape(text, meta) == Escape(text, other)
  {
    if text != [] {
      EscapeSame(text[1..], meta, other);
    }
  }

  /** An anchored pattern of plain characters matches the one text it spells. */
  predicate Spells(pattern: string, meta: string, text: string)
  {
    |pattern| >= 2 && pattern[0] == '^' && pattern[|pattern| - 1] == '$' && Literal(pattern[1..|pattern| - 1], meta) == Some(text)
  }

  predicate Matches(runner: Runner, pattern: string, text: string)
  {
    if runner == Go then Spells(pattern, SPECIAL, text)
    else pattern != [] && pattern[0] == '/' && Body(pattern[1..]).Some? && Spells(Body(pattern[1..]).value, SPECIAL_OR_SLASH, text)
  }

  function PatternFor(runner: Runner, text: string): string
  {
    if runner == Go then GoPattern(text) else JsPatternOf(text)
  }

  predicate OneLine(s: string)
  {
    forall i :: 0 <= i < |s| ==> !LineEnd(s[i])
  }

  lemma JsMetaHas()
    ensures '[' in JS_META && '/' in JS_META && '\\' in JS_META
  {
    assert JS_META[10] == '[' && JS_META[14] == '/' && JS_META[0] == '\\';
  }

  lemma SpecialHas()
    ensures '\\' in SPECIAL && '\\' in SPECIAL_OR_SLASH
  {
    assert SPECIAL[2] == '\\' && SPECIAL_OR_SLASH[2] == '\\';
  }

  lemma {:induction false} EscapedBody(text: string, meta: string)
    requires OneLine(text) && '[' in meta && '/' in meta && '\\' in meta
    ensures Body(Escape(text, meta) + "$/") == Some(Escape(text, meta) + "$")
  {
    if text == [] {
      assert "$/"[1..] == "/" && Escape(text, meta) + "$/" == "$/";
      assert Body("/") == Some([]);
      assert ['$'] + [] == "$" == Escape(text, meta) + "$";
    } else {
      EscapedBody(text[1..], meta);
      assert !LineEnd(text[0]);
      BodyOfOne(text[0], Escape(text[1..], meta), meta);
    }
  }

  lemma BodyOfOne(c: char, rest: string, meta: string)
    requires !LineEnd(c) && '[' in meta && '/' in meta && '\\' in meta && Body(rest + "$/") == Some(rest + "$")
    ensures var e := if c in meta then ['\\', c] else [c];
            Body(e + rest + "$/") == Some(e + rest + "$")
  {
    var e := if c in meta then ['\\', c] else [c];
    var s := e + rest + "$/";
    assert s[|e|..] == rest + "$/";
    if c in meta {
      assert s[0] == '\\' && s[1] == c;
      assert ['\\'] + ([c] + (rest + "$")) == e + rest + "$";
    } else {
      assert s[0] == c;
      assert [c] + (rest + "$") == e + rest + "$";
    }
  }

  lemma SpellsIff(text: string, meta: string, other: string)
    requires '\\' in meta
    ensures Spells("^" + Escape(text, meta) + "$", meta, other) <==> other == text
  {
    var p := "^" + Escape(text, meta) + "$";
    assert p[1..|p| - 1] == Escape(text, meta);
    LiteralIffEscape(Escape(text, meta), text, meta);
    LiteralIffEscape(Escape(text, meta), other, meta);
  }

  lemma SameEscapes(text: string)
    ensures Escape(text, GO_META) == Escape(text, SPECIAL) && Escape(text, JS_META) == Escape(text, SPECIAL_OR_SLASH)
  {
    forall c
      ensures c in GO_META <==> c in SPECIAL
      ensures c in JS_META <==> c in SPECIAL_OR_SLASH
    {
      EscapesTheSpecial(c);
    }
    EscapeSame(text, GO_META, SPECIAL);
    EscapeSame(text, JS_META, SPECIAL_OR_SLASH);
  }

  lemma BodyAnchored(e: string)
    requires Body(e + "$/") == Some(e + "$")
    ensures Body(("/^" + e + "$/")[1..]) == Some("^" + e + "$")
  {
    var p := ("/^" + e + "$/")[1..];
    assert p == ['^'] + (e + "$/") && p[1..] == e + "$/";
    assert ['^'] + (e + "$") == "^" + e + "$";
  }

  lemma JsBody(text: string)
    requires OneLine(text)
    ensures Body(JsPatternOf(text)[1..]) == Some("^" + Escape(text, JS_META) + "$")
  {
    JsMetaHas();
    EscapedBody(text, JS_META);
    BodyAnchored(Escape(text, JS_META));
  }

  /** A clause's pattern matches the clause and nothing else, under both runners. */
  lemma PatternMatchesOnlyItsText(runner: Runner, text: string, other: string)
    requires OneLine(text)
    ensures Matches(runner, PatternFor(runner, text), other) <==> other == text
  {
    SpecialHas();
    SameEscapes(text);
    SpellsIff(text, SPECIAL, other);
    SpellsIff(text, SPECIAL_OR_SLASH, other);
    JsBody(text);
  }

  // ---- The pending clauses -------------------------------------------------------------------------

  function AddNew(texts: seq<string>, x: string): seq<string>
  {
    if x in texts then texts else texts + [x]
  }

  /** Every distinct clause of the pending rows of one runner, in annex order. */
  function PendingTexts(rows: seq<Row>, runner: Runner): seq<string>
  {
    if rows == [] then []
    else
      var texts, r := PendingTexts(rows[..|rows| - 1], runner), rows[|rows| - 1];
      if r.runner != runner || r.status != Pending then texts
      else AddNew(AddNew(AddNew(texts, r.givenText), r.whenText), r.thenText)
  }

  method PendingTextsOf(rows: seq<Row>, runner: Runner) returns (texts: seq<string>)
    ensures texts == PendingTexts(rows, runner)
  {
    texts := [];
    var seen: set<string> := {};
    for i := 0 to |rows|
      invariant texts == PendingTexts(rows[..i], runner)
      invariant forall x :: x in seen <==> x in texts
    {
      assert rows[..i + 1][..i] == rows[..i];
      var r := rows[i];
      if r.runner == runner && r.status == Pending {
        ghost var before := texts;
        var clauses := Clauses(r);
        for k := 0 to 3
          invariant forall x :: x in seen <==> x in texts
          invariant k == 0 ==> texts == before
          invariant k == 1 ==> texts == AddNew(before, clauses[0])
          invariant k == 2 ==> texts == AddNew(AddNew(before, clauses[0]), clauses[1])
          invariant k == 3 ==> texts == AddNew(AddNew(AddNew(before, clauses[0]), clauses[1]), clauses[2])
        {
          if clauses[k] !in seen {
            seen := seen + {clauses[k]};
            texts := texts + [clauses[k]];
          }
        }
      }
    }
    assert rows[..|rows|] == rows;
  }

  ghost predicate AllApart(texts: seq<string>)
  {
    forall i, j :: 0 <= i < j < |texts| ==> texts[i] != texts[j]
  }

  /** Row r is one of the pending rows whose clauses are registered for the runner. */
  predicate Registers(r: Row, runner: Runner, x: string)
  {
    r.runner == runner && r.status == Pending && UsesIt(r, x)
  }

  lemma {:induction false} PendingTextsAre(rows: seq<Row>, runner: Runner, x: string)
    ensures AllApart(PendingTexts(rows, runner))
    ensures x in PendingTexts(rows, runner) <==> exists i :: 0 <= i < |rows| && Registers(rows[i], runner, x)
  {
    if rows != [] {
      var n := |rows| - 1;
      PendingTextsAre(rows[..n], runner, x);
      var texts, r := PendingTexts(rows[..n], runner), rows[n];
      AddedThree(texts, r.givenText, r.whenText, r.thenText, x);
      if i :| 0 <= i < n && Registers(rows[..n][i], runner, x) {
        assert Registers(rows[i], runner, x);
      }
      if i :| 0 <= i < |rows| && Registers(rows[i], runner, x) {
        assert i < n ==> Registers(rows[..n][i], runner, x);
      }
    }
  }

  lemma AddedThree(texts: seq<string>, a: string, b: string, c: string, x: string)
    requires AllApart(texts)
    ensures AllApart(AddNew(AddNew(AddNew(texts, a), b), c))
    ensures x in AddNew(AddNew(AddNew(texts, a), b), c) <==> x in texts || x == a || x == b || x == c
  {
    AddedOne(texts, a);
    AddedOne(AddNew(texts, a), b);
    AddedOne(AddNew(AddNew(texts, a), b), c);
  }

  lemma AddedOne(texts: seq<string>, a: string)
    requires AllApart(texts)
    ensures AllApart(AddNew(texts, a)) && forall x :: x in AddNew(texts, a) <==> x in texts || x == a
  {
  }

  /** One registered pattern and no other matches x. */
  ghost predicate MatchedOnce(runner: Runner, texts: seq<string>, x: string)
  {
    exists k :: 0 <= k < |texts| && MatchesText(runner, texts[k], x) && forall j :: 0 <= j < |texts| && j != k ==> !MatchesText(runner, texts[j], x)
  }

  ghost predicate NeverMatched(runner: Runner, texts: seq<string>, x: string)
  {
    forall k :: 0 <= k < |texts| ==> !MatchesText(runner, texts[k], x)
  }

  predicate MatchesText(runner: Runner, text: string, x: string)
  {
    Matches(runner, PatternFor(runner, text), x)
  }

  lemma MatchedOnceIff(runner: Runner, texts: seq<string>, x: string)
    requires AllApart(texts) && forall k :: 0 <= k < |texts| ==> (MatchesText(runner, texts[k], x) <==> x == texts[k])
    ensures x in texts ==> MatchedOnce(runner, texts, x)
    ensures x !in texts ==> NeverMatched(runner, texts, x)
  {
    if x in texts {
      var k :| 0 <= k < |texts| && texts[k] == x;
      assert MatchesText(runner, texts[k], x);
    }
  }

  /** In a valid annex each clause of a pending row is matched by exactly one of the patterns registered for the
      row's runner, and a clause of an implemented row by none of either runner. */
  lemma ClausesMeetTheirPatterns(c: Layout, a: Annex, i: nat, x: string, runner: Runner)
    requires Valid(c, a) && i < |a.rows| && UsesIt(a.rows[i], x)
    ensures a.rows[i].status == Pending && a.rows[i].runner == runner ==> MatchedOnce(runner, PendingTexts(a.rows, runner), x)
    ensures a.rows[i].status == Implemented ==> NeverMatched(runner, PendingTexts(a.rows, runner), x)
  {
    var texts := PendingTexts(a.rows, runner);
    PendingTextsAre(a.rows, runner, x);
    forall k | 0 <= k < |texts|
      ensures MatchesText(runner, texts[k], x) <==> x == texts[k]
    {
      PendingTextOneLine(c, a, runner, texts[k]);
      PatternMatchesOnlyItsText(runner, texts[k], x);
    }
    MatchedOnceIff(runner, texts, x);
    if a.rows[i].status == Pending && a.rows[i].runner == runner {
      assert Registers(a.rows[i], runner, x);
    }
    if a.rows[i].status == Implemented {
      ImplementedNotPending(a.rows, i, x, runner);
    }
  }

  lemma ImplementedNotPending(rows: seq<Row>, i: nat, x: string, runner: Runner)
    requires ClausesApart(rows) && i < |rows| && UsesIt(rows[i], x) && rows[i].status == Implemented
    ensures x !in PendingTexts(rows, runner)
  {
    PendingTextsAre(rows, runner, x);
    forall j | 0 <= j < |rows|
      ensures !Registers(rows[j], runner, x)
    {
      assert UsesIt(rows[j], x) ==> rows[j].status == Implemented;
    }
  }

  lemma PendingTextOneLine(c: Layout, a: Annex, runner: Runner, x: string)
    requires Valid(c, a) && x in PendingTexts(a.rows, runner)
    ensures OneLine(x)
  {
    PendingTextsAre(a.rows, runner, x);
    var j :| 0 <= j < |a.rows| && Registers(a.rows[j], runner, x);
    assert RowOk(c, a.rows[j]);
    ClauseIsOneLine(x);
  }

  lemma ClauseIsOneLine(x: string)
    requires ClauseOk(x)
    ensures OneLine(x)
  {
  }
}
