/**
 The requirement report: the result of one execution, the result of a row over every execution that covers it,
 and when the report is complete.
 */
module Report {
  import opened Text
  import opened Grouping
  import opened Pack
  import opened PackCheck

  datatype StepStatus = StepPassed | StepPending | StepFailed | StepUndefined | StepAmbiguous | StepOther

  /** One scenario that was run with its hooks. */
  datatype Element = Element(name: string, tags: seq<string>, before: seq<StepStatus>, steps: seq<StepStatus>, after: seq<StepStatus>)

  datatype Outcome = NoResult | Passed | NotRun | Failed

  datatype ReportRow = ReportRow(id: string, scenarios: seq<string>, result: Outcome)

  datatype Report = Report(rows: seq<ReportRow>, unknown: set<string>)

  // ---- One execution -------------------------------------------------------------------------------

  function All(e: Element): seq<StepStatus>
  {
    e.before + e.steps + e.after
  }

  predicate Fails(e: Element, s: StepStatus)
  {
    s == StepFailed || s == StepUndefined || s == StepAmbiguous || (s == StepPending && "@pending" !in e.tags)
  }

  predicate SomeFails(e: Element, steps: seq<StepStatus>)
  {
    exists i :: 0 <= i < |steps| && Fails(e, steps[i])
  }

  predicate AllPassed(steps: seq<StepStatus>)
  {
    forall i :: 0 <= i < |steps| ==> steps[i] == StepPassed
  }

  /** Failed when any step or hook fails; passed only with steps, when they and the hooks all passed. */
  function StatusOf(e: Element): Outcome
  {
    if SomeFails(e, All(e)) then Failed else if e.steps == [] || !AllPassed(All(e)) then NotRun else Passed
  }

  /** The steps and hooks of an execution. */
  ghost predicate Has(e: Element, s: StepStatus)
  {
    s in e.before || s in e.steps || s in e.after
  }

  /** An execution failed exactly if a step or hook failed, was undefined or ambiguous, or is pending in a scenario not
      tagged as pending; it passed exactly if it has steps and they and all hooks passed. */
  lemma StatusMeans(e: Element)
    ensures StatusOf(e) == Failed <==>
            Has(e, StepFailed) || Has(e, StepUndefined) || Has(e, StepAmbiguous) || (Has(e, StepPending) && "@pending" !in e.tags)
    ensures StatusOf(e) == Passed <==> e.steps != [] && forall s :: Has(e, s) ==> s == StepPassed
    ensures StatusOf(e) in {Failed, NotRun, Passed}
  {
    var all := All(e);
    assert forall s :: Has(e, s) <==> s in all;
    if i :| 0 <= i < |all| && Fails(e, all[i]) {
      assert all[i] in all;
    }
    forall s | s in all && Fails(e, s)
      ensures SomeFails(e, all)
    {
      var i :| 0 <= i < |all| && all[i] == s;
    }
    if AllPassed(all) {
      assert forall s :: s in all ==> s == StepPassed;
    }
    if forall s :: Has(e, s) ==> s == StepPassed {
      assert forall i :: 0 <= i < |all| ==> all[i] in all;
    }
  }

  /** An execution covers a row exactly if it has the row's tag. */
  lemma {:induction false} CoversMeans(tags: seq<string>, id: string)
    requires forall i :: 0 <= i < |tags| ==> HasPrefix(tags[i], "@")
    ensures id in RowIds(tags) <==> RowTagLike(id) && "@" + id in tags
  {
    if tags != [] {
      var n := |tags| - 1;
      CoversMeans(tags[..n], id);
      assert tags[n] == "@" + tags[n][1..] && ("@" + id)[1..] == id;
      assert tags == tags[..n] + [tags[n]];
    }
  }

  method Status(e: Element) returns (r: Outcome)
    ensures r == StatusOf(e)
  {
    var steps := All(e);
    r := Passed;
    for i := 0 to |steps|
      invariant !SomeFails(e, steps[..i])
      invariant r == if AllPassed(steps[..i]) then Passed else NotRun
    {
      if Fails(e, steps[i]) {
        return Failed;
      }
      StepsSnoc(e, steps, i);
      if steps[i] != StepPassed {
        r := NotRun;
      }
    }
    assert steps[..|steps|] == steps;
    if e.steps == [] {
      return NotRun;
    }
  }

  lemma StepsSnoc(e: Element, steps: seq<StepStatus>, i: nat)
    requires i < |steps|
    ensures SomeFails(e, steps[..i + 1]) <==> SomeFails(e, steps[..i]) || Fails(e, steps[i])
    ensures AllPassed(steps[..i + 1]) <==> AllPassed(steps[..i]) && steps[i] == StepPassed
  {
    assert steps[..i + 1][i] == steps[i] && forall k :: 0 <= k < i ==> steps[..i + 1][k] == steps[..i][k];
  }

  // ---- The join of results ---------------------------------------------------------------------------

  function Rank(r: Outcome): nat
  {
    match r case NoResult => 0 case Passed => 1 case NotRun => 2 case Failed => 3
  }

  function Worst(current: Outcome, next: Outcome): Outcome
  {
    if Rank(next) > Rank(current) then next else current
  }

  /** The weaker of two results is a join: the order and the grouping of executions do not matter. */
  lemma WorstIsJoin(a: Outcome, b: Outcome, c: Outcome)
    ensures Worst(a, b) == Worst(b, a) && Worst(Worst(a, b), c) == Worst(a, Worst(b, c))
    ensures Worst(a, a) == a && Worst(NoResult, a) == a
    ensures Rank(a) <= Rank(c) && Rank(b) <= Rank(c) <==> Rank(Worst(a, b)) <= Rank(c)
  {
  }

  // ---- The report ------------------------------------------------------------------------------------

  function RowIds(names: seq<string>): seq<string>
  {
    if names == [] then []
    else RowIds(names[..|names| - 1]) + (if RowTagLike(TagName(names[|names| - 1])) then [TagName(names[|names| - 1])] else [])
  }

  predicate Covers(e: Element, id: string)
  {
    id in RowIds(e.tags)
  }

  function Include(names: seq<string>, x: string): seq<string>
  {
    if x in names then names else names + [x]
  }

  function Distinct(ids: seq<string>): seq<string>
  {
    if ids == [] then [] else Include(Distinct(ids[..|ids| - 1]), ids[|ids| - 1])
  }

  /** The result of a row over a list of executions. */
  function ResultOf(es: seq<Element>, id: string): Outcome
  {
    if es == [] then NoResult
    else
      var r, e := ResultOf(es[..|es| - 1], id), es[|es| - 1];
      if Covers(e, id) then Worst(r, StatusOf(e)) else r
  }

  function ScenariosOf(es: seq<Element>, id: string): seq<string>
  {
    if es == [] then []
    else
      var names, e := ScenariosOf(es[..|es| - 1], id), es[|es| - 1];
      if Covers(e, id) then Distinct(names + [e.name]) else names
  }

  /** The last place of each identifier, which is the only one that is filled in. */
  predicate IsLast(rows: seq<string>, i: nat)
    requires i < |rows|
  {
    rows[i] !in rows[i + 1..]
  }

  function RowOf(es: seq<Element>, rows: seq<string>, i: nat): ReportRow
    requires i < |rows|
  {
    if IsLast(rows, i) then ReportRow(rows[i], ScenariosOf(es, rows[i]), ResultOf(es, rows[i])) else ReportRow(rows[i], [], NoResult)
  }

  function RowsOf(es: seq<Element>, rows: seq<string>): seq<ReportRow>
  {
    seq(|rows|, i requires 0 <= i < |rows| => RowOf(es, rows, i))
  }

  /** Row tags that name no row. */
  ghost function UnknownIn(es: seq<Element>, rows: seq<string>): set<string>
  {
    set k, id | 0 <= k < |es| && id in RowIds(es[k].tags) && id !in rows :: id
  }

  method Coverage(features: seq<seq<Element>>, rows: seq<string>) returns (report: Report)
    ensures report == Report(RowsOf(Flat(features), rows), UnknownIn(Flat(features), rows))
  {
    var known := LastPlaces(rows);
    var filled: seq<ReportRow> := seq(|rows|, i requires 0 <= i < |rows| => ReportRow(rows[i], [], NoResult));
    assert filled == RowsOf([], rows);
    var unknown: set<string> := {};
    for f := 0 to |features|
      invariant filled == RowsOf(Flat(features[..f]), rows) && unknown == UnknownIn(Flat(features[..f]), rows)
    {
      ghost var before := Flat(features[..f]);
      var feature := features[f];
      assert before + feature[..0] == before;
      for k := 0 to |feature|
        invariant filled == RowsOf(before + feature[..k], rows) && unknown == UnknownIn(before + feature[..k], rows)
      {
        filled, unknown := CoverElement(known, filled, unknown, rows, before + feature[..k], feature[k]);
        assert before + feature[..k] + [feature[k]] == before + feature[..k + 1];
      }
      assert feature[..|feature|] == feature && features[..f + 1][..f] == features[..f];
    }
    assert features[..|features|] == features;
    report := Report(filled, unknown);
  }

  ghost predicate Places(known: map<string, nat>, rows: seq<string>)
  {
    && (forall id :: id in known <==> id in rows)
    && (forall id :: id in known ==> known[id] < |rows| && rows[known[id]] == id && IsLast(rows, known[id]))
  }

  method LastPlaces(rows: seq<string>) returns (known: map<string, nat>)
    ensures Places(known, rows)
  {
    known := map[];
    for i := 0 to |rows|
      invariant forall id :: id in known <==> id in rows[..i]
      invariant forall id :: id in known ==> known[id] < i && rows[known[id]] == id && forall k :: known[id] < k < i ==> rows[k] != id
    {
      known := known[rows[i] := i];
    }
    assert rows[..|rows|] == rows;
  }

  /** Adds one execution to the rows it covers. */
  method CoverElement(known: map<string, nat>, filled: seq<ReportRow>, unknown: set<string>, rows: seq<string>, ghost es: seq<Element>, e: Element)
    returns (filled': seq<ReportRow>, unknown': set<string>)
    requires Places(known, rows) && filled == RowsOf(es, rows) && unknown == UnknownIn(es, rows)
    ensures filled' == RowsOf(es + [e], rows) && unknown' == UnknownIn(es + [e], rows)
  {
    var ids := Distinct(RowIds(e.tags));
    DistinctIs(RowIds(e.tags));
    filled', unknown' := filled, unknown;
    for j := 0 to |ids|
      invariant unknown' == unknown + NotRows(ids[..j], rows)
      invariant PartFilled(filled', es, e, rows, ids[..j])
    {
      var id := ids[j];
      assert ids[..j + 1] == ids[..j] + [id] && id !in ids[..j];
      NotRowsSnoc(ids[..j], id, rows);
      if id in known {
        var i := known[id];
        var status := Status(e);
        var r := filled'[i];
        PartPut(filled', es, e, rows, ids[..j], i);
        filled' := filled'[i := ReportRow(r.id, Distinct(r.scenarios + [e.name]), Worst(r.result, status))];
      } else {
        PartSkip(filled', es, e, rows, ids[..j], id);
        unknown' := unknown' + {id};
      }
    }
    assert ids[..|ids|] == ids;
    CoveredRows(es, e, rows);
    AllFilled(filled', es, e, rows, ids);
    UnknownWith(es, e, rows, ids);
  }

  /** The rows named in `done` have the execution, the others do not have it yet. */
  ghost predicate PartFilled(filled: seq<ReportRow>, es: seq<Element>, e: Element, rows: seq<string>, done: seq<string>)
  {
    && |filled| == |rows|
    && forall i :: 0 <= i < |rows| ==> filled[i] == if rows[i] in done then RowOf(es + [e], rows, i) else RowOf(es, rows, i)
  }

  lemma PartSkip(filled: seq<ReportRow>, es: seq<Element>, e: Element, rows: seq<string>, done: seq<string>, id: string)
    requires PartFilled(filled, es, e, rows, done) && id !in rows
    ensures PartFilled(filled, es, e, rows, done + [id])
  {
  }

  lemma NotRowsSnoc(ids: seq<string>, id: string, rows: seq<string>)
    ensures NotRows(ids + [id], rows) == NotRows(ids, rows) + if id in rows then {} else {id}
  {
  }

  lemma PartPut(filled: seq<ReportRow>, es: seq<Element>, e: Element, rows: seq<string>, done: seq<string>, i: nat)
    requires PartFilled(filled, es, e, rows, done) && i < |rows| && IsLast(rows, i) && Covers(e, rows[i]) && rows[i] !in done
    ensures var r := filled[i];
            PartFilled(filled[i := ReportRow(r.id, Distinct(r.scenarios + [e.name]), Worst(r.result, StatusOf(e)))], es, e, rows, done + [rows[i]])
  {
    RowWith(es, e, rows, i);
    OtherPlaces(es, e, rows, i);
  }

  lemma AllFilled(filled: seq<ReportRow>, es: seq<Element>, e: Element, rows: seq<string>, ids: seq<string>)
    requires PartFilled(filled, es, e, rows, ids) && forall id :: id in ids <==> id in RowIds(e.tags)
    requires forall i :: 0 <= i < |rows| && !Covers(e, rows[i]) ==> RowOf(es + [e], rows, i) == RowOf(es, rows, i)
    ensures filled == RowsOf(es + [e], rows)
  {
  }

  ghost function NotRows(ids: seq<string>, rows: seq<string>): set<string>
  {
    set id | id in ids && id !in rows :: id
  }

  lemma RowWith(es: seq<Element>, e: Element, rows: seq<string>, i: nat)
    requires i < |rows| && IsLast(rows, i) && Covers(e, rows[i])
    ensures var r := RowOf(es, rows, i);
            RowOf(es + [e], rows, i) == ReportRow(r.id, Distinct(r.scenarios + [e.name]), Worst(r.result, StatusOf(e)))
  {
    assert (es + [e])[..|es|] == es;
  }

  /** Earlier places of the same identifier stay empty. */
  lemma OtherPlaces(es: seq<Element>, e: Element, rows: seq<string>, i: nat)
    requires i < |rows| && IsLast(rows, i)
    ensures forall k :: 0 <= k < |rows| && k != i && rows[k] == rows[i] ==> RowOf(es + [e], rows, k) == RowOf(es, rows, k)
  {
    assert forall k :: i < k < |rows| ==> rows[k] == rows[i + 1..][k - i - 1];
    forall k | 0 <= k < i && rows[k] == rows[i]
      ensures !IsLast(rows, k)
    {
      assert rows[k + 1..][i - k - 1] == rows[i];
    }
  }

  lemma CoveredRows(es: seq<Element>, e: Element, rows: seq<string>)
    ensures forall i :: 0 <= i < |rows| && !Covers(e, rows[i]) ==> RowOf(es + [e], rows, i) == RowOf(es, rows, i)
  {
    assert (es + [e])[..|es|] == es;
  }

  lemma UnknownWith(es: seq<Element>, e: Element, rows: seq<string>, ids: seq<string>)
    requires forall id :: id in ids <==> id in RowIds(e.tags)
    ensures UnknownIn(es + [e], rows) == UnknownIn(es, rows) + NotRows(ids, rows)
  {
    var more := es + [e];
    assert more[|es|] == e && forall k :: 0 <= k < |es| ==> more[k] == es[k];
    forall id | id in UnknownIn(es, rows)
      ensures id in UnknownIn(more, rows)
    {
      var k :| 0 <= k < |es| && id in RowIds(es[k].tags);
      assert id in RowIds(more[k].tags);
    }
    forall id | id in NotRows(ids, rows)
      ensures id in UnknownIn(more, rows)
    {
      assert id in RowIds(more[|es|].tags);
    }
  }

  lemma {:induction false} DistinctIs(ids: seq<string>)
    ensures forall id :: id in Distinct(ids) <==> id in ids
    ensures forall i, j :: 0 <= i < j < |Distinct(ids)| ==> Distinct(ids)[i] != Distinct(ids)[j]
  {
    if ids != [] {
      DistinctIs(ids[..|ids| - 1]);
    }
  }

  // ---- What the report means -------------------------------------------------------------------------

  ghost predicate SomeCovers(es: seq<Element>, id: string, r: Outcome)
  {
    exists k :: 0 <= k < |es| && Covers(es[k], id) && StatusOf(es[k]) == r
  }

  /** A row's result in terms of all the executions that cover it: failed if one failed; not run if none failed
      and one did not run; passed if one passed and all of them did; none if there is none. */
  lemma {:induction false} ResultMeans(es: seq<Element>, id: string)
    ensures ResultOf(es, id) == if SomeCovers(es, id, Failed) then Failed
                                else if SomeCovers(es, id, NotRun) then NotRun
                                else if SomeCovers(es, id, Passed) then Passed
                                else NoResult
  {
    if es != [] {
      var n := |es| - 1;
      ResultMeans(es[..n], id);
      SomeCoversSnoc(es[..n], es[n], id, Failed);
      SomeCoversSnoc(es[..n], es[n], id, NotRun);
      SomeCoversSnoc(es[..n], es[n], id, Passed);
      assert es == es[..n] + [es[n]];
    }
  }

  lemma SomeCoversSnoc(es: seq<Element>, e: Element, id: string, r: Outcome)
    ensures SomeCovers(es + [e], id, r) <==> SomeCovers(es, id, r) || (Covers(e, id) && StatusOf(e) == r)
  {
    var more := es + [e];
    assert more[|es|] == e && forall k :: 0 <= k < |es| ==> more[k] == es[k];
  }

  /** A row has passed if and only if some execution covers it and every execution that covers it passed. */
  lemma PassedIff(es: seq<Element>, id: string)
    ensures ResultOf(es, id) == Passed <==>
            (exists k :: 0 <= k < |es| && Covers(es[k], id)) && forall k :: 0 <= k < |es| && Covers(es[k], id) ==> StatusOf(es[k]) == Passed
  {
    ResultMeans(es, id);
    assert forall e :: StatusOf(e) in {Passed, NotRun, Failed};
  }

  /** Merging reports: the result over two lists of executions is the weaker of the two results. */
  lemma {:induction false} MergedResult(es: seq<Element>, fs: seq<Element>, id: string)
    ensures ResultOf(es + fs, id) == Worst(ResultOf(es, id), ResultOf(fs, id))
  {
    if fs == [] {
      assert es + fs == es;
    } else {
      var n := |fs| - 1;
      MergedResult(es, fs[..n], id);
      assert (es + fs)[..|es + fs| - 1] == es + fs[..n] && (es + fs)[|es + fs| - 1] == fs[n];
      WorstIsJoin(ResultOf(es, id), ResultOf(fs[..n], id), StatusOf(fs[n]));
    }
  }

  /** The names of the executions that cover a row, in order. */
  function CoveringNames(es: seq<Element>, id: string): seq<string>
  {
    if es == [] then []
    else CoveringNames(es[..|es| - 1], id) + (if Covers(es[|es| - 1], id) then [es[|es| - 1].name] else [])
  }

  lemma {:induction false} CoveringNamesAppend(es: seq<Element>, fs: seq<Element>, id: string)
    ensures CoveringNames(es + fs, id) == CoveringNames(es, id) + CoveringNames(fs, id)
  {
    if fs == [] {
      assert es + fs == es;
    } else {
      var n := |fs| - 1;
      CoveringNamesAppend(es, fs[..n], id);
      assert (es + fs)[..|es + fs| - 1] == es + fs[..n] && (es + fs)[|es + fs| - 1] == fs[n];
    }
  }

  lemma DistinctSnoc(ids: seq<string>, x: string)
    ensures Distinct(ids + [x]) == Include(Distinct(ids), x)
  {
    assert (ids + [x])[..|ids|] == ids;
  }

  lemma {:induction false} DistinctTwice(a: seq<string>, b: seq<string>)
    ensures Distinct(Distinct(a) + b) == Distinct(a + b)
  {
    if b == [] {
      assert a + b == a && Distinct(a) + b == Distinct(a);
      DistinctIs(a);
      DistinctKeeps(Distinct(a));
    } else {
      var n := |b| - 1;
      DistinctTwice(a, b[..n]);
      DistinctSnoc(a + b[..n], b[n]);
      DistinctSnoc(Distinct(a) + b[..n], b[n]);
      assert a + b == a + b[..n] + [b[n]] && Distinct(a) + b == Distinct(a) + b[..n] + [b[n]];
    }
  }

  lemma {:induction false} DistinctKeeps(ids: seq<string>)
    requires forall i, j :: 0 <= i < j < |ids| ==> ids[i] != ids[j]
    ensures Distinct(ids) == ids
  {
    if ids != [] {
      DistinctKeeps(ids[..|ids| - 1]);
    }
  }

  lemma {:induction false} DistinctOfMore(a: seq<string>, b: seq<string>)
    ensures Distinct(a + Distinct(b)) == Distinct(a + b)
  {
    if b != [] {
      var n := |b| - 1;
      DistinctOfMore(a, b[..n]);
      DistinctIs(a + b[..n]);
      DistinctIs(b[..n]);
      DistinctSnoc(b[..n], b[n]);
      DistinctSnoc(a + b[..n], b[n]);
      DistinctSnoc(a + Distinct(b[..n]), b[n]);
      assert a + b == a + b[..n] + [b[n]] && b == b[..n] + [b[n]];
      assert a + (Distinct(b[..n]) + [b[n]]) == a + Distinct(b[..n]) + [b[n]];
      if b[n] in Distinct(b[..n]) {
        assert b[n] in a + b[..n];
      }
    }
  }

  lemma {:induction false} ScenariosAreNames(es: seq<Element>, id: string)
    ensures ScenariosOf(es, id) == Distinct(CoveringNames(es, id))
  {
    if es != [] {
      var n := |es| - 1;
      ScenariosAreNames(es[..n], id);
      DistinctTwice(CoveringNames(es[..n], id), [es[n].name]);
      assert !Covers(es[n], id) ==> CoveringNames(es, id) == CoveringNames(es[..n], id);
    }
  }

  lemma MergedScenarios(es: seq<Element>, fs: seq<Element>, id: string)
    ensures ScenariosOf(es + fs, id) == Distinct(ScenariosOf(es, id) + ScenariosOf(fs, id))
  {
    ScenariosAreNames(es, id);
    ScenariosAreNames(fs, id);
    ScenariosAreNames(es + fs, id);
    CoveringNamesAppend(es, fs, id);
    DistinctTwice(CoveringNames(es, id), CoveringNames(fs, id));
    DistinctOfMore(Distinct(CoveringNames(es, id)), CoveringNames(fs, id));
  }

  /** What one row of a merged report holds. */
  function MergedRow(p: ReportRow, q: ReportRow): ReportRow
  {
    ReportRow(p.id, Distinct(p.scenarios + q.scenarios), Worst(p.result, q.result))
  }

  function MergedRows(ps: seq<ReportRow>, qs: seq<ReportRow>): seq<ReportRow>
    requires |ps| == |qs|
  {
    seq(|ps|, i requires 0 <= i < |ps| => MergedRow(ps[i], qs[i]))
  }

  lemma UnknownAppend(es: seq<Element>, fs: seq<Element>, rows: seq<string>)
    ensures UnknownIn(es + fs, rows) == UnknownIn(es, rows) + UnknownIn(fs, rows)
  {
    var all := es + fs;
    forall k, id | 0 <= k < |es| && id in RowIds(es[k].tags) && id !in rows
      ensures id in UnknownIn(all, rows)
    {
      assert id in RowIds(all[k].tags);
    }
    forall k, id | 0 <= k < |fs| && id in RowIds(fs[k].tags) && id !in rows
      ensures id in UnknownIn(all, rows)
    {
      assert id in RowIds(all[|es| + k].tags);
    }
    forall id | id in UnknownIn(all, rows)
      ensures id in UnknownIn(es, rows) || id in UnknownIn(fs, rows)
    {
      var k :| 0 <= k < |all| && id in RowIds(all[k].tags);
      assert if k < |es| then all[k] == es[k] else all[k] == fs[k - |es|];
    }
  }

  /** The report over all features of two runs is the two runs' reports merged row by row. */
  lemma MergedReport(features: seq<seq<Element>>, more: seq<seq<Element>>, rows: seq<string>)
    ensures RowsOf(Flat(features + more), rows) == MergedRows(RowsOf(Flat(features), rows), RowsOf(Flat(more), rows))
    ensures UnknownIn(Flat(features + more), rows) == UnknownIn(Flat(features), rows) + UnknownIn(Flat(more), rows)
  {
    var es, fs := Flat(features), Flat(more);
    FlatAppend(features, more);
    UnknownAppend(es, fs, rows);
    forall i | 0 <= i < |rows|
      ensures RowOf(es + fs, rows, i) == MergedRow(RowOf(es, rows, i), RowOf(fs, rows, i))
    {
      MergedScenarios(es, fs, rows[i]);
      MergedResult(es, fs, rows[i]);
    }
  }

  /** In any order of the executions. */
  lemma OrderDoesNotMatter(es: seq<Element>, fs: seq<Element>, id: string)
    requires multiset(es) == multiset(fs)
    ensures ResultOf(es, id) == ResultOf(fs, id)
  {
    ResultMeans(es, id);
    ResultMeans(fs, id);
    SameCovers(es, fs, id, Failed);
    SameCovers(es, fs, id, NotRun);
    SameCovers(es, fs, id, Passed);
  }

  lemma SameCovers(es: seq<Element>, fs: seq<Element>, id: string, r: Outcome)
    requires multiset(es) == multiset(fs)
    ensures SomeCovers(es, id, r) <==> SomeCovers(fs, id, r)
  {
    if SomeCovers(es, id, r) {
      CoversByContents(es, fs, id, r);
    }
    if SomeCovers(fs, id, r) {
      CoversByContents(fs, es, id, r);
    }
  }

  lemma CoversByContents(es: seq<Element>, fs: seq<Element>, id: string, r: Outcome)
    requires multiset(es) == multiset(fs) && SomeCovers(es, id, r)
    ensures SomeCovers(fs, id, r)
  {
    var k :| 0 <= k < |es| && Covers(es[k], id) && StatusOf(es[k]) == r;
    assert es[k] in multiset(fs);
    var j :| 0 <= j < |fs| && fs[j] == es[k];
    assert Covers(fs[j], id);
  }

  lemma {:induction false} ScenariosIff(es: seq<Element>, id: string)
    ensures ScenariosOf(es, id) != [] <==> exists k :: 0 <= k < |es| && Covers(es[k], id)
  {
    if es != [] {
      var n := |es| - 1;
      ScenariosIff(es[..n], id);
      DistinctIs(ScenariosOf(es[..n], id) + [es[n].name]);
      if Covers(es[n], id) {
        assert es[n].name in Distinct(ScenariosOf(es[..n], id) + [es[n].name]);
      } else if k :| 0 <= k < |es| && Covers(es[k], id) {
        assert Covers(es[..n][k], id);
      }
    }
  }

  // ---- Complete --------------------------------------------------------------------------------------

  method Complete(rows: seq<ReportRow>) returns (ok: bool, failed: seq<string>, uncovered: seq<string>)
    ensures ok <==> IsComplete(rows)
    ensures ok <==> failed == [] && uncovered == []
  {
    failed, uncovered := [], [];
    for i := 0 to |rows|
      invariant failed == [] && uncovered == [] <==> forall k :: 0 <= k < i ==> RowComplete(rows[k])
    {
      if rows[i].scenarios == [] {
        uncovered := uncovered + [rows[i].id];
      } else if rows[i].result == Failed {
        failed := failed + [rows[i].id];
      }
    }
    ok := failed == [] && uncovered == [];
  }

  predicate RowComplete(r: ReportRow)
  {
    r.scenarios != [] && r.result != Failed
  }

  ghost predicate IsComplete(rows: seq<ReportRow>)
  {
    forall k :: 0 <= k < |rows| ==> RowComplete(rows[k])
  }

  ghost predicate RowsApart(rows: seq<string>)
  {
    forall i, j :: 0 <= i < j < |rows| ==> rows[i] != rows[j]
  }

  /** Every row is covered and none of its executions failed. */
  ghost predicate Satisfied(es: seq<Element>, id: string)
  {
    (exists k :: 0 <= k < |es| && Covers(es[k], id)) && !SomeCovers(es, id, Failed)
  }

  /** The report is complete if and only if no row is listed twice and every row is covered and none of its
      executions failed.  A row listed twice can never be complete: only its last place is filled in. */
  lemma CompleteIff(es: seq<Element>, rows: seq<string>)
    ensures IsComplete(RowsOf(es, rows)) <==> RowsApart(rows) && forall i :: 0 <= i < |rows| ==> Satisfied(es, rows[i])
  {
    if RowsApart(rows) {
      forall i | 0 <= i < |rows|
        ensures RowComplete(RowsOf(es, rows)[i]) <==> Satisfied(es, rows[i])
      {
        assert IsLast(rows, i);
        ScenariosIff(es, rows[i]);
        ResultMeans(es, rows[i]);
      }
    } else {
      var i, j :| 0 <= i < j < |rows| && rows[i] == rows[j];
      assert rows[i + 1..][j - i - 1] == rows[i];
      assert !RowComplete(RowsOf(es, rows)[i]);
    }
  }

  /** A row listed twice: every execution passed, and still the first place is uncovered. */
  lemma DuplicateRowIsUncovered(e: Element, id: string)
    requires Covers(e, id) && StatusOf(e) == Passed
    ensures RowsOf([e], [id, id])[0].scenarios == [] && RowsOf([e], [id, id])[1].result == Passed
    ensures !IsComplete(RowsOf([e], [id, id]))
  {
    var rows := [id, id];
    assert rows[1..] == [id] && rows[2..] == [];
    assert !IsLast(rows, 0) && IsLast(rows, 1);
    assert [e][..0] == [] && ResultOf([e], id) == Worst(NoResult, Passed);
    assert !RowComplete(RowsOf([e], rows)[0]);
  }
}
