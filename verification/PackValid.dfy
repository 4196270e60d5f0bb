/**
 Validation of the annex: what the program accepts before anything is generated from it or held to it.
 */
module PackValid {
  import opened Text
  import opened Grouping
  import opened Pack

  datatype Fault =
    | NoSource | NoRows
    | BadId(id: string) | BadTestId(id: string) | NotRebuilt(id: string) | BadClause(id: string) | UnknownFamily(id: string)
    | BadRunner(id: string) | BadStatus(id: string) | PendingCluster(id: string) | BadEvidence(id: string) | SharedPath(id: string)
    | TwoRunners(family: string) | SharedTrace(id: string) | SharedDiffer(id: string) | ClauseShared(clause: string)

  function Clauses(r: Row): seq<string>
  {
    [r.givenText, r.whenText, r.thenText]
  }

  predicate UsesIt(r: Row, x: string)
  {
    x == r.givenText || x == r.whenText || x == r.thenText
  }

  /** One line without white space around it. */
  predicate ClauseOk(s: string)
  {
    s != "" && TrimSpace(s) == s && '\n' !in s && '\r' !in s && '\U{2028}' !in s && '\U{2029}' !in s
  }

  function Rebuilt(givenText: string, whenText: string, thenText: string): string
  {
    "GIVEN " + givenText + " WHEN " + whenText + " THEN " + thenText
  }

  predicate Rebuilds(r: Row)
  {
    Rebuilt(r.givenText, r.whenText, r.thenText) == r.statement
  }

  predicate RowOk(c: Layout, r: Row)
  {
    && RowId(r.id) && TestId(r.testId) && Rebuilds(r)
    && ClauseOk(r.givenText) && ClauseOk(r.whenText) && ClauseOk(r.thenText)
    && r.family in c.titles && r.runner != OtherRunner && r.status != OtherStatus && !(r.cluster && r.status == Pending)
    && EvidenceOk(r)
  }

  /** A shared evidence path goes with a shared execution, and only with one. */
  predicate EvidenceOk(r: Row)
  {
    EvidencePath(r.evidencePath) && (r.sharedExecution != [] <==> HasPrefix(r.evidencePath, "evidence/shared/"))
  }

  ghost predicate IdsApart(rows: seq<Row>)
  {
    forall i, j :: 0 <= i < j < |rows| ==> rows[i].id != rows[j].id
  }

  ghost predicate OneRunner(rows: seq<Row>)
  {
    forall i, j :: 0 <= i < j < |rows| && rows[i].family == rows[j].family ==> rows[i].runner == rows[j].runner
  }

  function TestIds(s: seq<Row>): seq<string>
  {
    seq(|s|, i requires 0 <= i < |s| => s[i].testId)
  }

  predicate Agrees(r: Row, first: Row)
  {
    && r.statement == first.statement && r.evidencePath == first.evidencePath && r.family == first.family
    && r.status == first.status && r.cluster == first.cluster
  }

  /** A shared execution is traced to exactly its rows, and these agree in all that the scenario shows. */
  predicate SharedOk(s: seq<Row>)
  {
    && s != []
    && (s[0].sharedExecution != [] ==> Join(TestIds(s), " ") == Join(s[0].sharedExecution, " "))
    && forall i :: 1 <= i < |s| ==> Agrees(s[i], s[0])
  }

  ghost predicate AllShared(ss: seq<seq<Row>>)
  {
    forall i :: 0 <= i < |ss| ==> SharedOk(ss[i])
  }

  /** No clause is used by an implemented row and by one that is not. */
  ghost predicate ClausesApart(rows: seq<Row>)
  {
    forall i, j, x :: 0 <= i < |rows| && 0 <= j < |rows| && UsesIt(rows[i], x) && UsesIt(rows[j], x) ==>
      (rows[i].status == Implemented <==> rows[j].status == Implemented)
  }

  ghost predicate RowsOk(c: Layout, rows: seq<Row>)
  {
    forall i :: 0 <= i < |rows| ==> RowOk(c, rows[i])
  }

  ghost predicate Valid(c: Layout, a: Annex)
  {
    && a.source != "" && |a.sha256| == 64 && a.rows != []
    && RowsOk(c, a.rows) && IdsApart(a.rows) && OneRunner(a.rows) && AllShared(Scenarios(a.rows)) && ClausesApart(a.rows)
  }

  // ---- The validator -------------------------------------------------------------------------------

  method Validate(c: Layout, a: Annex) returns (faults: seq<Fault>)
    ensures faults == [] <==> Valid(c, a)
  {
    faults := [];
    if a.source == "" || |a.sha256| != 64 {
      faults := faults + [NoSource];
    }
    if a.rows == [] {
      faults := faults + [NoRows];
    }
    var rowFaults := CheckRows(c, a.rows);
    var runnerFaults := CheckRunners(a.rows);
    var shareFaults := CheckScenarios(a.rows);
    var clauseFaults := CheckClauses(a.rows);
    faults := faults + rowFaults + runnerFaults + shareFaults + clauseFaults;
  }

  method CheckRows(c: Layout, rows: seq<Row>) returns (faults: seq<Fault>)
    ensures faults == [] <==> RowsOk(c, rows) && IdsApart(rows)
  {
    faults := [];
    var seen: set<string> := {};
    for i := 0 to |rows|
      invariant seen == Ids(rows[..i])
      invariant faults == [] <==> RowsOk(c, rows[..i]) && IdsApart(rows[..i])
    {
      var more := CheckRow(c, rows[i], rows[i].id in seen);
      RowsSnoc(c, rows[..i], rows[i]);
      assert rows[..i + 1] == rows[..i] + [rows[i]];
      faults := faults + more;
      seen := seen + {rows[i].id};
    }
    assert rows[..|rows|] == rows;
  }

  ghost function Ids(rows: seq<Row>): set<string>
  {
    set k | 0 <= k < |rows| :: rows[k].id
  }

  lemma RowsSnoc(c: Layout, p: seq<Row>, r: Row)
    ensures RowsOk(c, p + [r]) <==> RowsOk(c, p) && RowOk(c, r)
    ensures IdsApart(p + [r]) <==> IdsApart(p) && r.id !in Ids(p)
    ensures Ids(p + [r]) == Ids(p) + {r.id}
  {
    var n := p + [r];
    assert n[|p|] == r && forall k :: 0 <= k < |p| ==> n[k] == p[k];
  }

  method CheckRow(c: Layout, r: Row, duplicate: bool) returns (faults: seq<Fault>)
    ensures faults == [] <==> RowOk(c, r) && !duplicate
  {
    faults := [];
    if !RowId(r.id) || duplicate {
      faults := faults + [BadId(r.id)];
    }
    if !TestId(r.testId) {
      faults := faults + [BadTestId(r.id)];
    }
    if "GIVEN " + r.givenText + " WHEN " + r.whenText + " THEN " + r.thenText != r.statement {
      faults := faults + [NotRebuilt(r.id)];
    }
    var bad := CheckEachClause(r);
    faults := faults + bad;
    if r.family !in c.titles {
      faults := faults + [UnknownFamily(r.id)];
    }
    if r.runner == OtherRunner {
      faults := faults + [BadRunner(r.id)];
    }
    if r.status == OtherStatus {
      faults := faults + [BadStatus(r.id)];
    }
    if r.cluster && r.status == Pending {
      faults := faults + [PendingCluster(r.id)];
    }
    var evidence := CheckEvidence(r);
    faults := faults + evidence;
  }

  method CheckEachClause(r: Row) returns (faults: seq<Fault>)
    ensures faults == [] <==> ClauseOk(r.givenText) && ClauseOk(r.whenText) && ClauseOk(r.thenText)
  {
    faults := [];
    var clauses := Clauses(r);
    for i := 0 to 3
      invariant faults == [] <==> forall k :: 0 <= k < i ==> ClauseOk(clauses[k])
    {
      var x := clauses[i];
      if x == "" || x != TrimSpace(x) || '\n' in x || '\r' in x || '\U{2028}' in x || '\U{2029}' in x {
        faults := faults + [BadClause(r.id)];
      }
    }
    assert clauses[0] == r.givenText && clauses[1] == r.whenText && clauses[2] == r.thenText;
  }

  method CheckEvidence(r: Row) returns (faults: seq<Fault>)
    ensures faults == [] <==> EvidenceOk(r)
  {
    faults := [];
    if !EvidencePath(r.evidencePath) {
      faults := faults + [BadEvidence(r.id)];
    }
    if (r.sharedExecution != []) != HasPrefix(r.evidencePath, "evidence/shared/") {
      faults := faults + [SharedPath(r.id)];
    }
  }

  /** The map has the runner of a row of each family seen so far. */
  ghost predicate RunnersSeen(runners: map<string, Runner>, rows: seq<Row>)
  {
    && (forall k :: 0 <= k < |rows| ==> rows[k].family in runners)
    && (forall f :: f in runners ==> SomeRow(rows, f, runners[f]))
  }

  ghost predicate SomeRow(rows: seq<Row>, f: string, runner: Runner)
  {
    exists k :: 0 <= k < |rows| && rows[k].family == f && rows[k].runner == runner
  }

  method CheckRunners(rows: seq<Row>) returns (faults: seq<Fault>)
    ensures faults == [] <==> OneRunner(rows)
  {
    faults := [];
    var runners: map<string, Runner> := map[];
    for i := 0 to |rows|
      invariant RunnersSeen(runners, rows[..i])
      invariant faults == [] <==> OneRunner(rows[..i])
    {
      RunnersStep(runners, rows[..i], rows[i]);
      assert rows[..i + 1] == rows[..i] + [rows[i]];
      if rows[i].family in runners && runners[rows[i].family] != rows[i].runner {
        faults := faults + [TwoRunners(rows[i].family)];
      }
      runners := runners[rows[i].family := rows[i].runner];
    }
    assert rows[..|rows|] == rows;
  }

  lemma RunnersStep(runners: map<string, Runner>, p: seq<Row>, r: Row)
    requires RunnersSeen(runners, p)
    ensures RunnersSeen(runners[r.family := r.runner], p + [r])
    ensures var clash := r.family in runners && runners[r.family] != r.runner;
            OneRunner(p + [r]) <==> OneRunner(p) && !clash
  {
    OneRunnerSnoc(p, r);
    var n, t := p + [r], runners[r.family := r.runner];
    assert n[|p|] == r;
    forall f | f in t
      ensures SomeRow(n, f, t[f])
    {
      if f != r.family {
        SomeRowGrows(p, r, f, runners[f]);
      }
    }
    assert forall k :: 0 <= k < |p| ==> n[k] == p[k];
    if r.family in runners {
      SomeRowDecides(p, r.family, runners[r.family]);
    }
  }

  /** With one runner for each family, any row of a family tells its runner. */
  lemma SomeRowDecides(p: seq<Row>, f: string, runner: Runner)
    requires SomeRow(p, f, runner)
    ensures OneRunner(p) ==> forall k :: 0 <= k < |p| && p[k].family == f ==> p[k].runner == runner
    ensures exists k :: 0 <= k < |p| && p[k].family == f && p[k].runner == runner
  {
  }

  lemma SomeRowGrows(p: seq<Row>, r: Row, f: string, runner: Runner)
    requires SomeRow(p, f, runner)
    ensures SomeRow(p + [r], f, runner)
  {
    var k :| 0 <= k < |p| && p[k].family == f && p[k].runner == runner;
    assert (p + [r])[k].family == f;
  }

  lemma OneRunnerSnoc(p: seq<Row>, r: Row)
    ensures OneRunner(p + [r]) <==> OneRunner(p) && forall k :: 0 <= k < |p| && p[k].family == r.family ==> p[k].runner == r.runner
  {
    var n := p + [r];
    assert n[|p|] == r && forall k :: 0 <= k < |p| ==> n[k] == p[k];
  }

  method CheckScenarios(rows: seq<Row>) returns (faults: seq<Fault>)
    ensures faults == [] <==> AllShared(Scenarios(rows))
  {
    faults := [];
    var ss := ScenariosOf(rows);
    GroupedOk(rows, ShareKey);
    for i := 0 to |ss|
      invariant faults == [] <==> forall k :: 0 <= k < i ==> SharedOk(ss[k])
    {
      assert GroupOk(ss[i], ShareKey);
      var more := CheckScenario(ss[i]);
      faults := faults + more;
    }
  }

  method CheckScenario(s: seq<Row>) returns (faults: seq<Fault>)
    requires s != []
    ensures faults == [] <==> SharedOk(s)
  {
    faults := [];
    var ids := [];
    for i := 0 to |s|
      invariant ids == TestIds(s)[..i]
    {
      ids := ids + [s[i].testId];
    }
    assert ids == TestIds(s);
    if s[0].sharedExecution != [] && Join(ids, " ") != Join(s[0].sharedExecution, " ") {
      faults := faults + [SharedTrace(s[0].id)];
    }
    ghost var traced := faults == [];
    for i := 1 to |s|
      invariant faults == [] <==> traced && forall k :: 1 <= k < i ==> Agrees(s[k], s[0])
    {
      if s[i].statement != s[0].statement || s[i].evidencePath != s[0].evidencePath || s[i].family != s[0].family
        || s[i].status != s[0].status || s[i].cluster != s[0].cluster {
        faults := faults + [SharedDiffer(s[i].id)];
      }
    }
  }

  // ---- Clauses shared between rows -----------------------------------------------------------------

  /** The statuses of the rows using each clause, by row identifier. */
  type Statuses = map<string, map<string, Status>>

  function Entry(m: Statuses, x: string, id: string): Option<Status>
  {
    if x in m && id in m[x] then Some(m[x][id]) else None
  }

  ghost predicate Records(rows: seq<Row>, n: nat, x: string, id: string, st: Status)
    requires n <= |rows|
  {
    exists k :: 0 <= k < n && UsesIt(rows[k], x) && rows[k].id == id && rows[k].status == st
  }

  /** m holds exactly the uses by the first n rows. */
  ghost predicate Complete(m: Statuses, rows: seq<Row>, n: nat)
    requires n <= |rows|
  {
    && (forall x, id :: Entry(m, x, id).Some? ==> Records(rows, n, x, id, Entry(m, x, id).value))
    && (forall k, x :: 0 <= k < n && UsesIt(rows[k], x) ==> Entry(m, x, rows[k].id) == Some(rows[k].status))
  }

  function Use(m: Statuses, x: string, r: Row): Statuses
  {
    m[x := (if x in m then m[x] else map[])[r.id := r.status]]
  }

  function UseAll(m: Statuses, r: Row): Statuses
  {
    Use(Use(Use(m, r.givenText, r), r.whenText, r), r.thenText, r)
  }

  lemma UseEntry(m: Statuses, c: string, r: Row, x: string, id: string)
    ensures Entry(Use(m, c, r), x, id) == if x == c && id == r.id then Some(r.status) else Entry(m, x, id)
  {
  }

  lemma UseAllEntry(m: Statuses, r: Row, x: string, id: string)
    ensures Entry(UseAll(m, r), x, id) == if UsesIt(r, x) && id == r.id then Some(r.status) else Entry(m, x, id)
  {
    UseEntry(m, r.givenText, r, x, id);
    UseEntry(Use(m, r.givenText, r), r.whenText, r, x, id);
    UseEntry(Use(Use(m, r.givenText, r), r.whenText, r), r.thenText, r, x, id);
  }

  method CheckClauses(rows: seq<Row>) returns (faults: seq<Fault>)
    ensures IdsApart(rows) ==> (faults == [] <==> ClausesApart(rows))
  {
    var statuses: Statuses := map[];
    for i := 0 to |rows|
      invariant IdsApart(rows) ==> Complete(statuses, rows, i)
    {
      ghost var before := statuses;
      var clauses := Clauses(rows[i]);
      for k := 0 to 3
        invariant k == 0 ==> statuses == before
        invariant k == 1 ==> statuses == Use(before, clauses[0], rows[i])
        invariant k == 2 ==> statuses == Use(Use(before, clauses[0], rows[i]), clauses[1], rows[i])
        invariant k == 3 ==> statuses == UseAll(before, rows[i])
      {
        statuses := Use(statuses, clauses[k], rows[i]);
      }
      if IdsApart(rows) {
        UsesComplete(before, rows, i);
      }
    }
    faults := MixedClauses(statuses);
    if IdsApart(rows) {
      CompleteIff(statuses, rows);
    }
  }

  lemma UsesComplete(m: Statuses, rows: seq<Row>, i: nat)
    requires i < |rows| && IdsApart(rows) && Complete(m, rows, i)
    ensures Complete(UseAll(m, rows[i]), rows, i + 1)
  {
    var r, t := rows[i], UseAll(m, rows[i]);
    forall x, id | Entry(t, x, id).Some?
      ensures Records(rows, i + 1, x, id, Entry(t, x, id).value)
    {
      UseAllEntry(m, r, x, id);
      if !(UsesIt(r, x) && id == r.id) {
        assert Records(rows, i, x, id, Entry(m, x, id).value);
      }
    }
    forall k, x | 0 <= k < i + 1 && UsesIt(rows[k], x)
      ensures Entry(t, x, rows[k].id) == Some(rows[k].status)
    {
      UseAllEntry(m, r, x, rows[k].id);
    }
  }

  /** Some row that uses the clause is implemented, and some is not. */
  predicate Mixed(byRow: map<string, Status>)
  {
    (exists id :: id in byRow && byRow[id] == Implemented) && (exists id :: id in byRow && byRow[id] != Implemented)
  }

  method MixedClauses(m: Statuses) returns (faults: seq<Fault>)
    ensures faults == [] <==> forall x :: x in m ==> !Mixed(m[x])
  {
    faults := [];
    var todo := m.Keys;
    while todo != {}
      invariant todo <= m.Keys
      invariant faults == [] <==> forall x :: x in m && x !in todo ==> !Mixed(m[x])
      decreases todo
    {
      var x :| x in todo;
      if Mixed(m[x]) {
        faults := faults + [ClauseShared(x)];
      }
      todo := todo - {x};
    }
  }

  lemma CompleteIff(m: Statuses, rows: seq<Row>)
    requires Complete(m, rows, |rows|)
    ensures (forall x :: x in m ==> !Mixed(m[x])) <==> ClausesApart(rows)
  {
    if x :| x in m && Mixed(m[x]) {
      var a :| a in m[x] && m[x][a] == Implemented;
      var b :| b in m[x] && m[x][b] != Implemented;
      assert Entry(m, x, a).Some? && Entry(m, x, b).Some?;
    }
    forall i, j, x | 0 <= i < |rows| && 0 <= j < |rows| && UsesIt(rows[i], x) && UsesIt(rows[j], x)
      && rows[i].status == Implemented && rows[j].status != Implemented
      ensures x in m && Mixed(m[x])
    {
      assert m[x][rows[i].id] == Implemented && m[x][rows[j].id] != Implemented;
    }
  }
}
