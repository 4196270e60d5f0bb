/**
 What the feature check accepts, in terms of the tags, steps and rows alone.  Nothing here is used by the check.
 */
module PackSpec {
  import opened Text
  import opened Grouping
  import opened Gherkin
  import opened Pack
  import opened PackValid
  import opened PackCheck
  import opened PackTheorems
  import opened PackExact

  // ---- Identifiers ---------------------------------------------------------------------------------

  ghost predicate AllDigits(d: string)
  {
    forall i :: 0 <= i < |d| ==> d[i] in "0123456789"
  }

  /** One of the prefixes and then digits. */
  ghost predicate Reads(t: string, prefixes: set<string>, d: string)
  {
    AllDigits(d) && exists p :: p in prefixes && t == p + d
  }

  ghost predicate LooksLikeRow(t: string)
  {
    exists d :: d != "" && Reads(t, {"ZT-", "TDR-BDD-", "M7-"}, d)
  }

  ghost predicate LooksLikeTest(t: string)
  {
    exists d :: d != "" && Reads(t, {"BDD-ZT-", "BDD-TDR-", "BDD-M7-"}, d)
  }

  lemma DigitIff(c: char)
    ensures c in "0123456789" <==> '0' <= c <= '9'
  {
    if '0' <= c <= '9' {
      assert "0123456789"[c as int - '0' as int] == c;
    }
  }

  lemma DigitsIff(d: string)
    ensures AllDigits(d) <==> Digits(d)
  {
    forall i | 0 <= i < |d|
      ensures d[i] in "0123456789" <==> '0' <= d[i] <= '9'
    {
      DigitIff(d[i]);
    }
  }

  lemma NumberedIff(t: string, prefix: string)
    ensures Numbered(t, prefix) <==> exists d :: d != "" && AllDigits(d) && t == prefix + d
  {
    if Numbered(t, prefix) {
      var d := t[|prefix|..];
      DigitsIff(d);
      assert t == prefix + d;
    }
    if d :| d != "" && AllDigits(d) && t == prefix + d {
      DigitsIff(d);
      assert t[|prefix|..] == d;
    }
  }

  lemma RowTagIff(t: string)
    ensures RowTagLike(t) <==> LooksLikeRow(t)
  {
    NumberedIff(t, "ZT-");
    NumberedIff(t, "TDR-BDD-");
    NumberedIff(t, "M7-");
    OfPrefixes(t, "ZT-", "TDR-BDD-", "M7-");
  }

  lemma TestTagIff(t: string)
    ensures TestIdLike(t) <==> LooksLikeTest(t)
  {
    NumberedIff(t, "BDD-ZT-");
    NumberedIff(t, "BDD-TDR-");
    NumberedIff(t, "BDD-M7-");
    OfPrefixes(t, "BDD-ZT-", "BDD-TDR-", "BDD-M7-");
  }

  lemma OfPrefixes(t: string, a: string, b: string, c: string)
    ensures (exists d :: d != "" && Reads(t, {a, b, c}, d)) <==>
              || (exists d :: d != "" && AllDigits(d) && t == a + d) || (exists d :: d != "" && AllDigits(d) && t == b + d)
              || (exists d :: d != "" && AllDigits(d) && t == c + d)
  {
    if d :| d != "" && AllDigits(d) && t == a + d {
      assert Reads(t, {a, b, c}, d);
    }
    if d :| d != "" && AllDigits(d) && t == b + d {
      assert Reads(t, {a, b, c}, d);
    }
    if d :| d != "" && AllDigits(d) && t == c + d {
      assert Reads(t, {a, b, c}, d);
    }
  }

  /** What a valid annex's identifiers are: a row's with two digits, a test's with three. */
  lemma IdentifiersMean(t: string)
    ensures RowId(t) <==> exists d :: |d| == 2 && Reads(t, {"ZT-", "TDR-BDD-", "M7-"}, d)
    ensures TestId(t) <==> exists d :: |d| == 3 && Reads(t, {"BDD-ZT-", "BDD-TDR-", "BDD-M7-"}, d)
  {
    RowIdMeans(t);
    TestIdMeans(t);
  }

  lemma LongIff(t: string, prefix: string, n: nat)
    requires n > 0
    ensures Numbered(t, prefix) && |t| == |prefix| + n <==> exists d :: |d| == n && AllDigits(d) && t == prefix + d
  {
    NumberedIff(t, prefix);
    if Numbered(t, prefix) && |t| == |prefix| + n {
      var d :| d != "" && AllDigits(d) && t == prefix + d;
      assert |d| == n;
    }
    if d :| |d| == n && AllDigits(d) && t == prefix + d {
      assert d != "";
    }
  }

  lemma OfPrefixesLong(t: string, a: string, b: string, c: string, n: nat)
    ensures (exists d :: |d| == n && Reads(t, {a, b, c}, d)) <==>
              || (exists d :: |d| == n && AllDigits(d) && t == a + d) || (exists d :: |d| == n && AllDigits(d) && t == b + d)
              || (exists d :: |d| == n && AllDigits(d) && t == c + d)
  {
    if d :| |d| == n && AllDigits(d) && t == a + d {
      assert Reads(t, {a, b, c}, d);
    }
    if d :| |d| == n && AllDigits(d) && t == b + d {
      assert Reads(t, {a, b, c}, d);
    }
    if d :| |d| == n && AllDigits(d) && t == c + d {
      assert Reads(t, {a, b, c}, d);
    }
  }

  lemma RowIdMeans(t: string)
    ensures RowId(t) <==> exists d :: |d| == 2 && Reads(t, {"ZT-", "TDR-BDD-", "M7-"}, d)
  {
    LongIff(t, "ZT-", 2);
    LongIff(t, "TDR-BDD-", 2);
    LongIff(t, "M7-", 2);
    OfPrefixesLong(t, "ZT-", "TDR-BDD-", "M7-", 2);
  }

  lemma TestIdMeans(t: string)
    ensures TestId(t) <==> exists d :: |d| == 3 && Reads(t, {"BDD-ZT-", "BDD-TDR-", "BDD-M7-"}, d)
  {
    LongIff(t, "BDD-ZT-", 3);
    LongIff(t, "BDD-TDR-", 3);
    LongIff(t, "BDD-M7-", 3);
    OfPrefixesLong(t, "BDD-ZT-", "BDD-TDR-", "BDD-M7-", 3);
  }

  predicate IsWord(w: string)
  {
    w != "" && forall c :: c in w ==> 'a' <= c <= 'z' || '0' <= c <= '9'
  }

  ghost predicate ThreeDigits(d: string)
  {
    |d| == 3 && AllDigits(d)
  }

  lemma WordIff(w: string)
    ensures IsWord(w) <==> Word(w)
  {
    assert forall i :: 0 <= i < |w| ==> w[i] in w;
  }

  /** One more group of a dash and three digits. */
  ghost predicate OneMore(p: string -> bool, t: string)
  {
    exists u, e :: p(u) && ThreeDigits(e) && t == u + "-" + e
  }

  lemma SuffixedLast(t: string, n: nat)
    ensures Suffixed(t, n + 1) <==> |t| > 4 && t[|t| - 4] == '-' && Digits(t[|t| - 3..]) && Suffixed(t[..|t| - 4], n)
  {
    if |t| > 4 * n + 4 {
      var u, m := t[..|t| - 4], |t| - 4 - 4 * n;
      assert u[..|u| - 4 * n] == t[..m];
      forall i | 0 <= i < n
        ensures u[m + 4 * i] == t[m + 4 * i] && u[m + 4 * i + 1..m + 4 * i + 4] == t[m + 4 * i + 1..m + 4 * i + 4]
      {
      }
      assert t[m + 4 * n + 1..m + 4 * n + 4] == t[|t| - 3..];
    }
  }

  lemma OneMoreIff(p: string -> bool, t: string)
    requires !p("")
    ensures OneMore(p, t) <==> |t| > 4 && t[|t| - 4] == '-' && Digits(t[|t| - 3..]) && p(t[..|t| - 4])
  {
    if |t| > 4 && t[|t| - 4] == '-' && Digits(t[|t| - 3..]) && p(t[..|t| - 4]) {
      DigitsIff(t[|t| - 3..]);
      assert ThreeDigits(t[|t| - 3..]) && t == t[..|t| - 4] + "-" + t[|t| - 3..];
    }
    if u, e :| p(u) && ThreeDigits(e) && t == u + "-" + e {
      assert u != "";
      DigitsIff(e);
      assert t[..|t| - 4] == u && t[|t| - 3..] == e;
    }
  }

  lemma OneMoreSame(p: string -> bool, q: string -> bool, t: string)
    requires forall u :: p(u) == q(u)
    ensures OneMore(p, t) == OneMore(q, t)
  {
  }

  lemma SuffixedMore(t: string, n: nat)
    ensures Suffixed(t, n + 1) <==> OneMore(u => Suffixed(u, n), t)
  {
    SuffixedLast(t, n);
    OneMoreIff(u => Suffixed(u, n), t);
  }

  lemma SuffixedNone(t: string)
    ensures Suffixed(t, 0) <==> IsWord(t)
  {
    assert t[..|t|] == t;
    WordIff(t);
  }

  lemma SuffixedOnce(t: string)
    ensures Suffixed(t, 1) <==> OneMore(IsWord, t)
  {
    SuffixedMore(t, 0);
    forall u
      ensures Suffixed(u, 0) <==> IsWord(u)
    {
      SuffixedNone(u);
    }
    OneMoreSame(u => Suffixed(u, 0), IsWord, t);
  }

  lemma SuffixedTwice(t: string)
    ensures Suffixed(t, 2) <==> OneMore(u => OneMore(IsWord, u), t)
  {
    SuffixedMore(t, 1);
    forall u
      ensures Suffixed(u, 1) <==> OneMore(IsWord, u)
    {
      SuffixedOnce(u);
    }
    OneMoreSame(u => Suffixed(u, 1), u => OneMore(IsWord, u), t);
  }

  /** A path under the prefix. */
  ghost predicate Under(p: string -> bool, prefix: string, s: string)
  {
    exists t :: p(t) && s == prefix + t + "/"
  }

  lemma UnderIff(p: string -> bool, prefix: string, s: string)
    requires s != ""
    ensures Under(p, prefix, s) <==>
              s[|s| - 1] == '/' && HasPrefix(s[..|s| - 1], prefix) && p(s[..|s| - 1][|prefix|..])
  {
    if s[|s| - 1] == '/' && HasPrefix(s[..|s| - 1], prefix) && p(s[..|s| - 1][|prefix|..]) {
      var t := s[..|s| - 1][|prefix|..];
      assert s == s[..|s| - 1] + "/" && s[..|s| - 1] == prefix + t;
      assert p(t) && s == prefix + t + "/";
    }
    if t :| p(t) && s == prefix + t + "/" {
      assert s[..|s| - 1] == prefix + t;
    }
  }

  /** An evidence path is that of one test, or of an execution shared by two. */
  lemma EvidenceMeans(s: string)
    ensures EvidencePath(s) <==> Under(t => OneMore(IsWord, t), "evidence/bdd-", s) || Under(t => OneMore(u => OneMore(IsWord, u), t), "evidence/shared/bdd-", s)
  {
    if s != "" {
      var t := s[..|s| - 1];
      UnderIff(t => OneMore(IsWord, t), "evidence/bdd-", s);
      UnderIff(t => OneMore(u => OneMore(IsWord, u), t), "evidence/shared/bdd-", s);
      if HasPrefix(t, "evidence/bdd-") {
        SuffixedOnce(t[|"evidence/bdd-"|..]);
      }
      if HasPrefix(t, "evidence/shared/bdd-") {
        SuffixedTwice(t[|"evidence/shared/bdd-"|..]);
      }
    }
  }

  // ---- Tags ----------------------------------------------------------------------------------------

  /** The tag as it is written, and its name. */
  ghost predicate Writes(tag: string, name: string)
  {
    tag == "@" + name || (tag == name && !("@" <= tag))
  }

  ghost predicate Tagged(tags: seq<string>, name: string)
  {
    exists k :: 0 <= k < |tags| && Writes(tags[k], name)
  }

  /** How often the tag is there. */
  ghost function Times(tags: seq<string>, name: string): nat
  {
    if tags == [] then 0 else Times(tags[..|tags| - 1], name) + (if Writes(tags[|tags| - 1], name) then 1 else 0)
  }

  lemma TagsIff(tag: string, name: string)
    ensures Writes(tag, name) <==> TagName(tag) == name
  {
    if "@" <= tag {
      assert tag == "@" + tag[1..];
    }
    assert ("@" + name)[1..] == name;
  }

  lemma TaggedIff(tags: seq<string>, name: string)
    ensures Tagged(tags, name) <==> name in Names(tags)
  {
    forall k | 0 <= k < |tags|
      ensures Writes(tags[k], name) <==> Names(tags)[k] == name
    {
      TagsIff(tags[k], name);
    }
  }

  lemma {:induction false} TimesIs(tags: seq<string>, name: string)
    ensures Times(tags, name) == multiset(Names(tags))[name]
  {
    if tags != [] {
      var n := |tags| - 1;
      TimesIs(tags[..n], name);
      TagsIff(tags[n], name);
      assert Names(tags) == Names(tags[..n]) + [TagName(tags[n])];
    } else {
      assert Names(tags) == [];
    }
  }

  /** No row, test or pending tag, which belong on scenarios. */
  ghost predicate Outside(tags: seq<string>)
  {
    forall t :: Tagged(tags, t) ==> !LooksLikeRow(t) && !LooksLikeTest(t) && t != "pending"
  }

  lemma OutsideIff(tags: seq<string>)
    ensures Outside(tags) <==> OuterOk(tags)
  {
    forall t
      ensures Tagged(tags, t) <==> t in Names(tags)
      ensures Inner(t) <==> LooksLikeRow(t) || LooksLikeTest(t) || t == "pending"
    {
      TaggedIff(tags, t);
      RowTagIff(t);
      TestTagIff(t);
    }
    if OuterOk(tags) {
      forall t | Tagged(tags, t)
        ensures !Inner(t)
      {
        var k :| 0 <= k < |Names(tags)| && Names(tags)[k] == t;
      }
    }
  }

  // ---- The rows of a scenario ----------------------------------------------------------------------

  /** How often the test identifier is due: once for each tag that names a row with it. */
  ghost function Due(rows: seq<Row>, tags: seq<string>, t: string): nat
  {
    if rows == [] then 0
    else Due(rows[..|rows| - 1], tags, t) + (if rows[|rows| - 1].testId == t then Times(tags, rows[|rows| - 1].id) else 0)
  }

  /** None of the first n tags names a row. */
  ghost predicate NamesNone(rows: seq<Row>, tags: seq<string>, n: nat)
    requires n <= |tags|
  {
    forall j, q :: 0 <= j < n && q in rows ==> !Writes(tags[j], q.id)
  }

  ghost predicate FirstAt(rows: seq<Row>, tags: seq<string>, r: Row, k: nat)
  {
    k < |tags| && r in rows && Writes(tags[k], r.id) && NamesNone(rows, tags, k)
  }

  /** The row of the first tag that names one. */
  ghost predicate First(rows: seq<Row>, tags: seq<string>, r: Row)
  {
    exists k: nat :: FirstAt(rows, tags, r, k)
  }

  ghost predicate Mapped(rows: seq<Row>, byId: map<string, Row>)
  {
    && (forall r :: r in rows ==> RowTagLike(r.id) && r.id in byId && byId[r.id] == r)
    && (forall id :: id in byId ==> byId[id] in rows && byId[id].id == id)
  }

  lemma {:induction false} KnownIff(rows: seq<Row>, byId: map<string, Row>, names: seq<string>, r: Row)
    requires Mapped(rows, byId)
    ensures r in KnownRows(byId, names) <==> r in rows && r.id in names
  {
    if names != [] {
      var n := |names| - 1;
      KnownIff(rows, byId, names[..n], r);
      assert names == names[..n] + [names[n]];
    }
  }

  lemma {:induction false} KnownFirst(rows: seq<Row>, byId: map<string, Row>, tags: seq<string>, n: nat)
    requires Mapped(rows, byId) && n <= |tags|
    ensures var known := KnownRows(byId, Names(tags[..n]));
            if known != [] then First(rows, tags, known[0]) else NamesNone(rows, tags, n)
  {
    if n > 0 {
      KnownFirst(rows, byId, tags, n - 1);
      NamesSnoc(tags, n - 1);
      NamedOne(rows, byId, tags, n - 1);
    } else {
      assert Names(tags[..0]) == [];
    }
  }

  lemma NamesSnoc(tags: seq<string>, n: nat)
    requires n < |tags|
    ensures Names(tags[..n + 1]) == Names(tags[..n]) + [TagName(tags[n])] && Names(tags[..n + 1])[..n] == Names(tags[..n])
  {
  }

  lemma NamedOne(rows: seq<Row>, byId: map<string, Row>, tags: seq<string>, n: nat)
    requires Mapped(rows, byId) && n < |tags|
    ensures NamesNone(rows, tags, n) ==>
              var t := TagName(tags[n]);
              if RowTagLike(t) && t in byId then First(rows, tags, byId[t]) else NamesNone(rows, tags, n + 1)
  {
    forall name
      ensures Writes(tags[n], name) <==> TagName(tags[n]) == name
    {
      TagsIff(tags[n], name);
    }
    if NamesNone(rows, tags, n) && RowTagLike(TagName(tags[n])) && TagName(tags[n]) in byId {
      assert FirstAt(rows, tags, byId[TagName(tags[n])], n);
    }
  }

  lemma FirstIsOne(rows: seq<Row>, tags: seq<string>, r: Row, q: Row)
    requires First(rows, tags, r) && First(rows, tags, q) && forall x, y :: x in rows && y in rows && x.id == y.id ==> x == y
    ensures r == q
  {
    var k: nat :| FirstAt(rows, tags, r, k);
    var m: nat :| FirstAt(rows, tags, q, m);
    TagsIff(tags[k], r.id);
    TagsIff(tags[k], q.id);
  }

  lemma {:induction false} TestTagsAre(tags: seq<string>, n: nat, t: string)
    requires n <= |tags|
    ensures multiset(TestTags(Names(tags[..n])))[t] == if TestIdLike(t) then Times(tags[..n], t) else 0
  {
    if n == 0 {
      assert Names(tags[..0]) == [];
    } else {
      TestTagsAre(tags, n - 1, t);
      NamesSnoc(tags, n - 1);
      TagsIff(tags[n - 1], t);
      ReadsSnoc(map[], Names(tags[..n - 1]), "", TagName(tags[n - 1]));
      assert tags[..n][..n - 1] == tags[..n - 1];
    }
  }

  /** How often this one tag makes the test identifier due. */
  ghost function DueBy(rows: seq<Row>, tag: string, t: string): nat
  {
    if rows == [] then 0
    else DueBy(rows[..|rows| - 1], tag, t) + (if rows[|rows| - 1].testId == t && Writes(tag, rows[|rows| - 1].id) then 1 else 0)
  }

  lemma {:induction false} DueSnoc(rows: seq<Row>, tags: seq<string>, tag: string, t: string)
    ensures Due(rows, tags + [tag], t) == Due(rows, tags, t) + DueBy(rows, tag, t)
  {
    if rows != [] {
      DueSnoc(rows[..|rows| - 1], tags, tag, t);
      assert (tags + [tag])[..|tags|] == tags;
    }
  }

  lemma {:induction false} DueByNone(rows: seq<Row>, tag: string, t: string)
    requires forall i :: 0 <= i < |rows| ==> !Writes(tag, rows[i].id)
    ensures DueBy(rows, tag, t) == 0
  {
    if rows != [] {
      DueByNone(rows[..|rows| - 1], tag, t);
    }
  }

  lemma {:induction false} DueByOne(rows: seq<Row>, i: nat, tag: string, t: string)
    requires IdsApart(rows) && i < |rows| && Writes(tag, rows[i].id)
    ensures DueBy(rows, tag, t) == if rows[i].testId == t then 1 else 0
  {
    var n := |rows| - 1;
    forall j | 0 <= j < |rows| && j != i
      ensures !Writes(tag, rows[j].id)
    {
      TagsIff(tag, rows[i].id);
      TagsIff(tag, rows[j].id);
    }
    if i < n {
      DueByOne(rows[..n], i, tag, t);
    } else {
      DueByNone(rows[..n], tag, t);
    }
  }

  lemma {:induction false} NothingDue(rows: seq<Row>, t: string)
    ensures Due(rows, [], t) == 0
  {
    if rows != [] {
      NothingDue(rows[..|rows| - 1], t);
    }
  }

  lemma {:induction false} DueIs(rows: seq<Row>, byId: map<string, Row>, tags: seq<string>, n: nat, t: string)
    requires Mapped(rows, byId) && IdsApart(rows) && n <= |tags|
    ensures multiset(TestIds(KnownRows(byId, Names(tags[..n]))))[t] == Due(rows, tags[..n], t)
  {
    if n == 0 {
      assert Names(tags[..0]) == [];
      NothingDue(rows, t);
    } else {
      DueIs(rows, byId, tags, n - 1, t);
      NamesSnoc(tags, n - 1);
      assert tags[..n] == tags[..n - 1] + [tags[n - 1]];
      DueSnoc(rows, tags[..n - 1], tags[n - 1], t);
      OneKnown(rows, byId, KnownRows(byId, Names(tags[..n - 1])), tags[n - 1], t);
    }
  }

  lemma OneKnown(rows: seq<Row>, byId: map<string, Row>, known: seq<Row>, tag: string, t: string)
    requires Mapped(rows, byId) && IdsApart(rows)
    ensures var x := TagName(tag);
            multiset(TestIds(known + (if RowTagLike(x) && x in byId then [byId[x]] else [])))[t]
            == multiset(TestIds(known))[t] + DueBy(rows, tag, t)
  {
    var x := TagName(tag);
    if RowTagLike(x) && x in byId {
      assert TestIds(known + [byId[x]]) == TestIds(known) + [byId[x].testId];
      var i :| 0 <= i < |rows| && rows[i] == byId[x];
      TagsIff(tag, rows[i].id);
      DueByOne(rows, i, tag, t);
    } else {
      assert known + [] == known;
      forall i | 0 <= i < |rows|
        ensures !Writes(tag, rows[i].id)
      {
        assert rows[i] in rows;
        TagsIff(tag, rows[i].id);
      }
      DueByNone(rows, tag, t);
    }
  }

  // ---- A scenario in order -------------------------------------------------------------------------

  ghost predicate PathIs(c: Layout, r: Row, path: string)
  {
    if r.family in c.handWritten then path == c.handWritten[r.family]
    else path == "features/" + (match r.runner case Go => "go" case Js => "js" case OtherRunner => "") + "/" + r.family + ".feature"
  }

  ghost predicate WordForWord(steps: seq<Step>, r: Row)
  {
    && steps == [Step("Given", r.givenText, true), Step("When", r.whenText, true), Step("Then", r.thenText, true)]
    && r.statement == "GIVEN " + r.givenText + " WHEN " + r.whenText + " THEN " + r.thenText
  }

  ghost predicate TaggedRow(rows: seq<Row>, tags: seq<string>, r: Row)
  {
    r in rows && Tagged(tags, r.id)
  }

  ghost predicate Alike(r: Row, first: Row)
  {
    r.statement == first.statement && r.status == first.status && r.cluster == first.cluster
  }

  /** The scenario is that of its rows, of which `first` is the first: their test identifiers, status and cluster flag,
      their file, their wording. */
  ghost predicate IsTheirs(c: Layout, rows: seq<Row>, path: string, l: Located, first: Row)
  {
    var tags := l.scenario.tags;
    && !l.background
    && (forall t :: LooksLikeTest(t) ==> Times(tags, t) == Due(rows, tags, t))
    && (forall r :: TaggedRow(rows, tags, r) ==> Alike(r, first))
    && (Tagged(tags, "pending") <==> first.status == Pending)
    && (Tagged(l.inherited, "cluster") || Tagged(tags, "cluster") <==> first.cluster)
    && PathIs(c, first, path) && WordForWord(l.scenario.steps, first)
  }

  ghost predicate ScenarioInOrder(c: Layout, rows: seq<Row>, path: string, l: Located)
  {
    && (forall i :: 0 <= i < |l.scenario.examples| ==> Outside(l.scenario.examples[i]) && !Tagged(l.scenario.examples[i], "cluster"))
    && (forall t :: Tagged(l.scenario.tags, t) && LooksLikeRow(t) ==> exists r :: r in rows && r.id == t)
    && (forall first :: First(rows, l.scenario.tags, first) ==> IsTheirs(c, rows, path, l, first))
  }

  lemma TestsIff(rows: seq<Row>, byId: map<string, Row>, tags: seq<string>)
    requires Mapped(rows, byId) && IdsApart(rows) && forall r :: r in rows ==> TestIdLike(r.testId)
    ensures multiset(TestTags(Names(tags))) == multiset(TestIds(KnownRows(byId, Names(tags)))) <==>
              forall t :: LooksLikeTest(t) ==> Times(tags, t) == Due(rows, tags, t)
  {
    var got, want := multiset(TestTags(Names(tags))), multiset(TestIds(KnownRows(byId, Names(tags))));
    assert tags[..|tags|] == tags;
    forall t
      ensures got[t] == (if LooksLikeTest(t) then Times(tags, t) else 0) && want[t] == Due(rows, tags, t)
      ensures !LooksLikeTest(t) ==> want[t] == 0
    {
      TestTagsAre(tags, |tags|, t);
      TestTagIff(t);
      DueIs(rows, byId, tags, |tags|, t);
      if !LooksLikeTest(t) {
        NotDue(rows, tags, t);
      }
    }
    if forall t :: LooksLikeTest(t) ==> Times(tags, t) == Due(rows, tags, t) {
      assert forall t :: got[t] == want[t];
    }
  }

  lemma {:induction false} NotDue(rows: seq<Row>, tags: seq<string>, t: string)
    requires !TestIdLike(t) && forall r :: r in rows ==> TestIdLike(r.testId)
    ensures Due(rows, tags, t) == 0
  {
    if rows != [] {
      assert rows[|rows| - 1] in rows;
      NotDue(rows[..|rows| - 1], tags, t);
    }
  }

  lemma AlikeIs(rows: seq<Row>, byId: map<string, Row>, tags: seq<string>, first: Row)
    requires Mapped(rows, byId)
    ensures var known := KnownRows(byId, Names(tags));
            (forall i :: 0 <= i < |known| ==> SharesScenario(known[i], first)) <==> forall r :: TaggedRow(rows, tags, r) ==> Alike(r, first)
  {
    var known := KnownRows(byId, Names(tags));
    forall r
      ensures r in known <==> TaggedRow(rows, tags, r)
    {
      KnownIff(rows, byId, Names(tags), r);
      TaggedIff(tags, r.id);
    }
    if forall i :: 0 <= i < |known| ==> SharesScenario(known[i], first) {
      forall r | TaggedRow(rows, tags, r)
        ensures Alike(r, first)
      {
        var i :| 0 <= i < |known| && known[i] == r;
      }
    }
    if forall r :: TaggedRow(rows, tags, r) ==> Alike(r, first) {
      forall i | 0 <= i < |known|
        ensures SharesScenario(known[i], first)
      {
        assert known[i] in known && TaggedRow(rows, tags, known[i]);
      }
    }
  }

  lemma PathIff(c: Layout, r: Row, path: string)
    ensures FeaturePath(c, r.family, r.runner) == path <==> PathIs(c, r, path)
  {
  }

  lemma WordedIs(steps: seq<Step>, r: Row)
    ensures Worded(steps, r) <==> WordForWord(steps, r)
  {
  }

  lemma TheirsIff(c: Layout, rows: seq<Row>, byId: map<string, Row>, path: string, l: Located)
    requires Mapped(rows, byId) && IdsApart(rows) && forall r :: r in rows ==> TestIdLike(r.testId)
    requires KnownRows(byId, Names(l.scenario.tags)) != []
    ensures var known := KnownRows(byId, Names(l.scenario.tags));
            !l.background && TaggedAs(c, path, l, known) && Worded(l.scenario.steps, known[0]) <==> IsTheirs(c, rows, path, l, known[0])
  {
    var tags, known := l.scenario.tags, KnownRows(byId, Names(l.scenario.tags));
    TestsIff(rows, byId, tags);
    AlikeIs(rows, byId, tags, known[0]);
    TaggedIff(tags, "pending");
    TaggedIff(tags, "cluster");
    TaggedIff(l.inherited, "cluster");
    PathIff(c, known[0], path);
    WordedIs(l.scenario.steps, known[0]);
  }

  lemma FirstsAre(rows: seq<Row>, byId: map<string, Row>, tags: seq<string>)
    requires Mapped(rows, byId)
    ensures var known := KnownRows(byId, Names(tags));
            forall first :: First(rows, tags, first) <==> known != [] && first == known[0]
  {
    KnownFirst(rows, byId, tags, |tags|);
    assert tags[..|tags|] == tags;
    forall first | First(rows, tags, first)
      ensures KnownRows(byId, Names(tags)) != [] && first == KnownRows(byId, Names(tags))[0]
    {
      if KnownRows(byId, Names(tags)) != [] {
        forall x, y | x in rows && y in rows && x.id == y.id
          ensures x == y
        {
        }
        FirstIsOne(rows, tags, first, KnownRows(byId, Names(tags))[0]);
      }
    }
  }

  lemma ExamplesIff(examples: seq<seq<string>>)
    ensures ExamplesOk(examples) <==> forall i :: 0 <= i < |examples| ==> Outside(examples[i]) && !Tagged(examples[i], "cluster")
  {
    forall i | 0 <= i < |examples|
      ensures ExampleOk(examples[i]) <==> Outside(examples[i]) && !Tagged(examples[i], "cluster")
    {
      OutsideIff(examples[i]);
      TaggedIff(examples[i], "cluster");
    }
  }

  lemma KnownTagsIff(rows: seq<Row>, byId: map<string, Row>, tags: seq<string>)
    requires Mapped(rows, byId)
    ensures TagsKnown(byId, Names(tags)) <==> forall t :: Tagged(tags, t) && LooksLikeRow(t) ==> exists r :: r in rows && r.id == t
  {
    forall t
      ensures Tagged(tags, t) <==> t in Names(tags)
      ensures LooksLikeRow(t) <==> RowTagLike(t)
      ensures t in byId <==> exists r :: r in rows && r.id == t
    {
      TaggedIff(tags, t);
      RowTagIff(t);
    }
  }

  lemma ScenarioIff(c: Layout, rows: seq<Row>, byId: map<string, Row>, path: string, l: Located)
    requires Mapped(rows, byId) && IdsApart(rows) && forall r :: r in rows ==> TestIdLike(r.testId)
    ensures ScenarioOk(c, byId, path, l) <==> ScenarioInOrder(c, rows, path, l)
  {
    ExamplesIff(l.scenario.examples);
    KnownTagsIff(rows, byId, l.scenario.tags);
    FirstsAre(rows, byId, l.scenario.tags);
    if KnownRows(byId, Names(l.scenario.tags)) != [] {
      TheirsIff(c, rows, byId, path, l);
    }
  }

  // ---- Files in order ------------------------------------------------------------------------------

  /** The scenario is in the feature, directly or in a rule, with the tags it inherits and whether a background of the
      feature or of its rule comes before it. */
  ghost predicate InFeature(tags: seq<string>, children: seq<Child>, l: Located)
  {
    || (FeatureScenario(l.scenario) in children && l.inherited == tags && (l.background <==> Background in children))
    || exists i, j ::
         && 0 <= i < |children| && children[i].Rule? && 0 <= j < |children[i].children|
         && children[i].children[j] == RuleScenario(l.scenario) && l.inherited == tags + children[i].tags
         && (l.background <==> Background in children || RuleBackground in children[i].children)
  }

  ghost function RuleTimes(children: seq<RuleChild>, id: string): nat
  {
    if children == [] then 0
    else
      var x := children[|children| - 1];
      RuleTimes(children[..|children| - 1], id) + (if x.RuleScenario? then Times(x.scenario.tags, id) else 0)
  }

  /** How often scenarios of the feature are tagged so. */
  ghost function FeatureTimes(children: seq<Child>, id: string): nat
  {
    if children == [] then 0
    else
      var x := children[|children| - 1];
      FeatureTimes(children[..|children| - 1], id)
      + if x.FeatureScenario? then Times(x.scenario.tags, id) else if x.Rule? then RuleTimes(x.children, id) else 0
  }

  ghost function FilesTimes(files: seq<File>, id: string): nat
  {
    if files == [] then 0
    else
      var f := files[|files| - 1];
      FilesTimes(files[..|files| - 1], id) + if f.doc.Feature? then FeatureTimes(f.doc.children, id) else 0
  }

  ghost predicate FileInOrder(c: Layout, rows: seq<Row>, f: File)
  {
    && !f.doc.Unparsable?
    && (f.doc.Feature? ==>
          && Outside(f.doc.tags) && (forall i :: 0 <= i < |f.doc.children| && f.doc.children[i].Rule? ==> Outside(f.doc.children[i].tags))
          && forall l :: InFeature(f.doc.tags, f.doc.children, l) ==> ScenarioInOrder(c, rows, f.path, l))
  }

  /** Every file is in order, and over all of them each row is tagged exactly once. */
  ghost predicate InOrder(c: Layout, a: Annex, files: seq<File>)
  {
    (forall f :: f in files ==> FileInOrder(c, a.rows, f)) && forall r :: r in a.rows ==> FilesTimes(files, r.id) == 1
  }

  lemma {:induction false} PlacedInRuleIff(tags: seq<string>, background: bool, children: seq<RuleChild>, l: Located)
    ensures l in PlacedInRule(tags, background, children) <==>
              RuleScenario(l.scenario) in children && l.inherited == tags && l.background == background
  {
    if children != [] {
      var n := |children| - 1;
      PlacedInRuleIff(tags, background, children[..n], l);
      assert children == children[..n] + [children[n]];
    }
  }

  /** The part of InFeature about one child. */
  ghost predicate OfChild(tags: seq<string>, background: bool, x: Child, l: Located)
  {
    || (x.FeatureScenario? && l == Located(x.scenario, tags, background))
    || (x.Rule? && RuleScenario(l.scenario) in x.children && l.inherited == tags + x.tags
        && (l.background <==> background || RuleBackground in x.children))
  }

  ghost predicate OfSome(tags: seq<string>, background: bool, children: seq<Child>, n: nat, l: Located)
    requires n <= |children|
  {
    exists i :: 0 <= i < n && OfChild(tags, background, children[i], l)
  }

  lemma OfMore(tags: seq<string>, background: bool, children: seq<Child>, n: nat, l: Located)
    requires n < |children|
    ensures OfSome(tags, background, children, n + 1, l) <==> OfSome(tags, background, children, n, l) || OfChild(tags, background, children[n], l)
  {
  }

  lemma {:induction false} PlacedIff(tags: seq<string>, background: bool, children: seq<Child>, n: nat, l: Located)
    requires n <= |children|
    ensures l in Placed(tags, background, children[..n]) <==> OfSome(tags, background, children, n, l)
  {
    if n == 0 {
      assert Placed(tags, background, children[..0]) == [];
    } else {
      PlacedIff(tags, background, children, n - 1, l);
      PlacedMore(tags, background, children, n - 1);
      OneChild(tags, background, children[n - 1], l);
      OfMore(tags, background, children, n - 1, l);
      InEither(Placed(tags, background, children[..n - 1]), PlacedOne(tags, background, children[n - 1]), l);
    }
  }

  lemma InEither(a: seq<Located>, b: seq<Located>, l: Located)
    ensures l in a + b <==> l in a || l in b
  {
  }

  lemma PlacedMore(tags: seq<string>, background: bool, children: seq<Child>, n: nat)
    requires n < |children|
    ensures Placed(tags, background, children[..n + 1]) == Placed(tags, background, children[..n]) + PlacedOne(tags, background, children[n])
  {
    assert children[..n + 1][..n] == children[..n];
  }

  function PlacedOne(tags: seq<string>, background: bool, x: Child): seq<Located>
  {
    if x.FeatureScenario? then [Located(x.scenario, tags, background)]
    else if x.Rule? then PlacedInRule(tags + x.tags, background || RuleHasBackground(x.children), x.children)
    else []
  }

  lemma OneChild(tags: seq<string>, background: bool, x: Child, l: Located)
    ensures l in PlacedOne(tags, background, x) <==> OfChild(tags, background, x, l)
  {
    if x.Rule? {
      PlacedInRuleIff(tags + x.tags, background || RuleHasBackground(x.children), x.children, l);
      assert RuleHasBackground(x.children) <==> RuleBackground in x.children;
    }
  }

  lemma LocatedIff(f: File, l: Located)
    requires f.doc.Feature?
    ensures l in LocatedIn(f) <==> InFeature(f.doc.tags, f.doc.children, l)
  {
    var tags, children := f.doc.tags, f.doc.children;
    PlacedIff(tags, HasBackground(children), children, |children|, l);
    assert children[..|children|] == children;
    assert HasBackground(children) <==> Background in children;
    if InFeature(tags, children, l) {
      if FeatureScenario(l.scenario) in children && l.inherited == tags && (l.background <==> Background in children) {
        var i :| 0 <= i < |children| && children[i] == FeatureScenario(l.scenario);
        assert OfChild(tags, HasBackground(children), children[i], l);
      } else {
        var i, j :| && 0 <= i < |children| && children[i].Rule? && 0 <= j < |children[i].children|
                    && children[i].children[j] == RuleScenario(l.scenario) && l.inherited == tags + children[i].tags
                    && (l.background <==> Background in children || RuleBackground in children[i].children);
        assert OfChild(tags, HasBackground(children), children[i], l);
      }
    }
    if i :| 0 <= i < |children| && OfChild(tags, HasBackground(children), children[i], l) {
      if children[i].Rule? {
        var j :| 0 <= j < |children[i].children| && children[i].children[j] == RuleScenario(l.scenario);
      }
    }
  }

  lemma {:induction false} KnownTagTimes(byId: map<string, Row>, tags: seq<string>, n: nat, id: string)
    requires RowTagLike(id) && id in byId && n <= |tags|
    ensures multiset(KnownTags(byId, Names(tags[..n])))[id] == Times(tags[..n], id)
  {
    if n > 0 {
      KnownTagTimes(byId, tags, n - 1, id);
      NamesSnoc(tags, n - 1);
      TagsIff(tags[n - 1], id);
      ReadsSnoc(byId, Names(tags[..n - 1]), "", TagName(tags[n - 1]));
      assert tags[..n][..n - 1] == tags[..n - 1];
    } else {
      assert Names(tags[..0]) == [];
    }
  }

  lemma FoundSnoc(byId: map<string, Row>, ls: seq<Located>, l: Located, id: string)
    requires RowTagLike(id) && id in byId
    ensures multiset(ScenariosFound(byId, ls + [l]))[id] == multiset(ScenariosFound(byId, ls))[id] + Times(l.scenario.tags, id)
  {
    assert (ls + [l])[..|ls|] == ls;
    var tags := l.scenario.tags;
    KnownTagTimes(byId, tags, |tags|, id);
    assert tags[..|tags|] == tags;
  }

  lemma {:induction false} ScenariosFoundIsFlatMap(byId: map<string, Row>, ls: seq<Located>, f: Located -> seq<string>)
    requires forall l :: f(l) == KnownTags(byId, Names(l.scenario.tags))
    ensures ScenariosFound(byId, ls) == FlatMap(ls, f)
  {
    if ls != [] {
      ScenariosFoundIsFlatMap(byId, ls[..|ls| - 1], f);
    }
  }

  lemma FoundAppend(byId: map<string, Row>, ls: seq<Located>, ms: seq<Located>)
    ensures ScenariosFound(byId, ls + ms) == ScenariosFound(byId, ls) + ScenariosFound(byId, ms)
  {
    var f := (l: Located) => KnownTags(byId, Names(l.scenario.tags));
    ScenariosFoundIsFlatMap(byId, ls, f);
    ScenariosFoundIsFlatMap(byId, ms, f);
    ScenariosFoundIsFlatMap(byId, ls + ms, f);
    FlatMapAppend(ls, ms, f);
  }

  lemma {:induction false} RuleFound(byId: map<string, Row>, tags: seq<string>, background: bool, children: seq<RuleChild>, id: string)
    requires RowTagLike(id) && id in byId
    ensures multiset(ScenariosFound(byId, PlacedInRule(tags, background, children)))[id] == RuleTimes(children, id)
  {
    if children != [] {
      var n := |children| - 1;
      var rest, x := PlacedInRule(tags, background, children[..n]), children[n];
      RuleFound(byId, tags, background, children[..n], id);
      if x.RuleScenario? {
        FoundSnoc(byId, rest, Located(x.scenario, tags, background), id);
      } else {
        assert rest + [] == rest;
      }
    }
  }

  lemma {:induction false} FoundTimes(byId: map<string, Row>, tags: seq<string>, background: bool, children: seq<Child>, id: string)
    requires RowTagLike(id) && id in byId
    ensures multiset(ScenariosFound(byId, Placed(tags, background, children)))[id] == FeatureTimes(children, id)
  {
    if children != [] {
      var n := |children| - 1;
      var rest, x := Placed(tags, background, children[..n]), children[n];
      FoundTimes(byId, tags, background, children[..n], id);
      if x.FeatureScenario? {
        FoundSnoc(byId, rest, Located(x.scenario, tags, background), id);
      } else if x.Rule? {
        FoundAppend(byId, rest, PlacedInRule(tags + x.tags, background || RuleHasBackground(x.children), x.children));
        RuleFound(byId, tags + x.tags, background || RuleHasBackground(x.children), x.children, id);
      } else {
        assert rest + [] == rest;
      }
    }
  }

  lemma {:induction false} AllFoundTimes(byId: map<string, Row>, files: seq<File>, id: string)
    requires RowTagLike(id) && id in byId
    ensures multiset(FilesFound(byId, files))[id] == FilesTimes(files, id)
  {
    if files != [] {
      var f := files[|files| - 1];
      AllFoundTimes(byId, files[..|files| - 1], id);
      if f.doc.Feature? {
        FoundTimes(byId, f.doc.tags, HasBackground(f.doc.children), f.doc.children, id);
      }
    }
  }

  lemma FileIff(c: Layout, rows: seq<Row>, byId: map<string, Row>, f: File)
    requires Mapped(rows, byId) && IdsApart(rows) && forall r :: r in rows ==> TestIdLike(r.testId)
    ensures FileOk(c, byId, f) <==> FileInOrder(c, rows, f)
  {
    if f.doc.Feature? {
      OutsideIff(f.doc.tags);
      forall i | 0 <= i < |f.doc.children| && f.doc.children[i].Rule?
        ensures OuterOk(f.doc.children[i].tags) <==> Outside(f.doc.children[i].tags)
      {
        OutsideIff(f.doc.children[i].tags);
      }
      forall l
        ensures l in LocatedIn(f) <==> InFeature(f.doc.tags, f.doc.children, l)
        ensures ScenarioOk(c, byId, f.path, l) <==> ScenarioInOrder(c, rows, f.path, l)
      {
        LocatedIff(f, l);
        ScenarioIff(c, rows, byId, f.path, l);
      }
    }
  }

  lemma ValidMapped(c: Layout, rows: seq<Row>)
    requires RowsOk(c, rows) && IdsApart(rows)
    ensures Mapped(rows, ById(rows)) && forall r :: r in rows ==> TestIdLike(r.testId)
  {
    ByIdHas(rows);
    forall r | r in rows
      ensures RowTagLike(r.id) && TestIdLike(r.testId)
    {
      RowIdReads(r.id);
      TestIdReads(r.testId);
    }
  }

  lemma FilesIff(c: Layout, rows: seq<Row>, byId: map<string, Row>, files: seq<File>)
    requires Mapped(rows, byId) && IdsApart(rows) && forall r :: r in rows ==> TestIdLike(r.testId)
    ensures (forall f :: f in files ==> FileOk(c, byId, f)) <==> forall f :: f in files ==> FileInOrder(c, rows, f)
  {
    forall f: File
      ensures FileOk(c, byId, f) <==> FileInOrder(c, rows, f)
    {
      FileIff(c, rows, byId, f);
    }
  }

  lemma RowsIff(rows: seq<Row>, byId: map<string, Row>, files: seq<File>)
    requires Mapped(rows, byId)
    ensures (forall i :: 0 <= i < |rows| ==> multiset(FilesFound(byId, files))[rows[i].id] == 1) <==>
              forall r :: r in rows ==> FilesTimes(files, r.id) == 1
  {
    forall r | r in rows
      ensures multiset(FilesFound(byId, files))[r.id] == FilesTimes(files, r.id)
    {
      AllFoundTimes(byId, files, r.id);
    }
    assert forall i :: 0 <= i < |rows| ==> rows[i] in rows;
  }

  /** The feature check reports nothing about a valid annex and any files exactly if they are in order. */
  lemma ReportsNothingExactly(c: Layout, a: Annex, files: seq<File>)
    requires Valid(c, a)
    ensures Problems(c, a, files) == [] <==> InOrder(c, a, files)
  {
    ReportsNothingIff(c, a, files);
    ValidMapped(c, a.rows);
    FilesIff(c, a.rows, ById(a.rows), files);
    RowsIff(a.rows, ById(a.rows), files);
  }

  // ---- Names and headings of generated files -------------------------------------------------------

  /** Requirement a comes before b among the rows. */
  ghost predicate ComesFirst(rows: seq<Row>, a: string, b: string)
  {
    exists k :: 0 <= k < |rows| && rows[k].requirement == a && forall m :: 0 <= m <= k ==> rows[m].requirement != b
  }

  /** A scenario's name is the requirements of its rows, each once and in the order of the rows. */
  lemma NameMeans(rows: seq<Row>)
    ensures ScenarioName(rows) == Join(Requirements(rows), " / ")
    ensures forall r :: r in Requirements(rows) <==> exists k :: 0 <= k < |rows| && rows[k].requirement == r
    ensures forall i, j :: 0 <= i < j < |Requirements(rows)| ==> ComesFirst(rows, Requirements(rows)[i], Requirements(rows)[j])
  {
    RequirementsAre(rows, |rows|);
    assert rows[..|rows|] == rows;
  }

  lemma {:induction false} RequirementsAre(rows: seq<Row>, n: nat)
    requires n <= |rows|
    ensures forall r :: r in Requirements(rows[..n]) <==> exists k :: 0 <= k < n && rows[k].requirement == r
    ensures forall i, j :: 0 <= i < j < |Requirements(rows[..n])| ==> ComesFirst(rows, Requirements(rows[..n])[i], Requirements(rows[..n])[j])
  {
    if n > 0 {
      RequirementsAre(rows, n - 1);
      assert rows[..n][..n - 1] == rows[..n - 1];
      NewComesLast(rows, n - 1, Requirements(rows[..n - 1]));
    }
  }

  lemma NewComesLast(rows: seq<Row>, n: nat, names: seq<string>)
    requires n < |rows| && forall r :: r in names <==> exists k :: 0 <= k < n && rows[k].requirement == r
    ensures rows[n].requirement !in names ==> forall i :: 0 <= i < |names| ==> ComesFirst(rows, names[i], rows[n].requirement)
  {
    if rows[n].requirement !in names {
      forall i | 0 <= i < |names|
        ensures ComesFirst(rows, names[i], rows[n].requirement)
      {
        assert names[i] in names;
        var k :| 0 <= k < n && rows[k].requirement == names[i];
        forall m | 0 <= m <= k
          ensures rows[m].requirement != rows[n].requirement
        {
          assert rows[m].requirement in names;
        }
      }
    }
  }

  /** A generated file starts with the notice, its family's title, and where its rows are from. */
  lemma HeadingMeans(c: Layout, ss: seq<seq<Row>>)
    requires FamilyGroup(ss)
    ensures var family := ss[0][0].family;
            var title := if family in c.titles then c.titles[family] else "";
            "# " + c.notice + "\n" + ("Feature: " + title + "\n")
            + ("  Annex A rows for " + title + ", worded exactly as in the Annex." + "\n") <= RenderedText(c, ss)
  {
  }
}
