/**
 The line diff of the policy-hook probe: a table of longest-common-subsequence lengths filled from the
 back, then a walk from the front that writes one " ", "-" or "+" line per step.
 */
module LineDiff {
  import opened Text

  /** A line of the diff. */
  datatype Op = Keep(line: string) | Del(line: string) | Add(line: string)

  // ---- What a diff means -----------------------------------------------------------------------

  /** The diff without its "+" lines. */
  function Left(ops: seq<Op>): seq<string>
  {
    if ops == [] then [] else (if ops[0].Add? then [] else [ops[0].line]) + Left(ops[1..])
  }

  /** The diff without its "-" lines. */
  function Right(ops: seq<Op>): seq<string>
  {
    if ops == [] then [] else (if ops[0].Del? then [] else [ops[0].line]) + Right(ops[1..])
  }

  /** The unchanged lines. */
  function Kept(ops: seq<Op>): seq<string>
  {
    if ops == [] then [] else (if ops[0].Keep? then [ops[0].line] else []) + Kept(ops[1..])
  }

  /** `s` is what remains of `a` after dropping some of its elements. */
  ghost predicate Subsequence(s: seq<string>, a: seq<string>)
  {
    if s == [] then true
    else if a == [] then false
    else (s[0] == a[0] && Subsequence(s[1..], a[1..])) || Subsequence(s, a[1..])
  }

  // ---- The table -------------------------------------------------------------------------------

  /** The recurrence of the table, on the lines of a from i and of b from j. */
  function Lcs(a: seq<string>, b: seq<string>, i: nat, j: nat): nat
    requires i <= |a| && j <= |b|
    decreases |a| - i + |b| - j
  {
    if i == |a| || j == |b| then 0
    else if a[i] == b[j] then Lcs(a, b, i + 1, j + 1) + 1
    else Max(Lcs(a, b, i + 1, j), Lcs(a, b, i, j + 1))
  }

  lemma {:induction false} SubsequenceTail(s: seq<string>, a: seq<string>)
    requires Subsequence(s, a) && s != []
    ensures a != [] && Subsequence(s[1..], a[1..])
  {
    if s[0] == a[0] && Subsequence(s[1..], a[1..]) {
    } else {
      SubsequenceTail(s, a[1..]);
      SubsequenceSkip(s[1..], a[1..]);
    }
  }

  lemma SubsequenceSkip(s: seq<string>, a: seq<string>)
    requires a != [] && Subsequence(s, a[1..])
    ensures Subsequence(s, a)
  {
  }

  /** The recurrence bounds every common subsequence. */
  lemma {:induction false} LcsBounds(s: seq<string>, a: seq<string>, b: seq<string>, i: nat, j: nat)
    requires i <= |a| && j <= |b|
    requires Subsequence(s, a[i..]) && Subsequence(s, b[j..])
    ensures |s| <= Lcs(a, b, i, j)
    decreases |a| - i + |b| - j
  {
    if s == [] {
    } else {
      SubsequenceTail(s, a[i..]);
      SubsequenceTail(s, b[j..]);
      assert a[i..][1..] == a[i + 1..] && b[j..][1..] == b[j + 1..];
      if a[i] == b[j] {
        LcsBounds(s[1..], a, b, i + 1, j + 1);
      } else if s[0] != a[i] {
        LcsBounds(s, a, b, i + 1, j);
      } else {
        LcsBounds(s, a, b, i, j + 1);
      }
    }
  }

  // ---- The walk --------------------------------------------------------------------------------

  /** The diff the walk writes from line i of a and line j of b on. */
  function Walk(a: seq<string>, b: seq<string>, i: nat, j: nat): seq<Op>
    requires i <= |a| && j <= |b|
    decreases |a| - i + |b| - j
  {
    if i == |a| && j == |b| then []
    else if i == |a| then [Add(b[j])] + Walk(a, b, i, j + 1)
    else if j == |b| then [Del(a[i])] + Walk(a, b, i + 1, j)
    else if a[i] == b[j] then [Keep(a[i])] + Walk(a, b, i + 1, j + 1)
    else if Lcs(a, b, i + 1, j) >= Lcs(a, b, i, j + 1) then [Del(a[i])] + Walk(a, b, i + 1, j)
    else [Add(b[j])] + Walk(a, b, i, j + 1)
  }

  function Ops(a: seq<string>, b: seq<string>): seq<Op>
  {
    Walk(a, b, 0, 0)
  }

  lemma ConsMeaning(op: Op, rest: seq<Op>)
    ensures Left([op] + rest) == (if op.Add? then Left(rest) else [op.line] + Left(rest))
    ensures Right([op] + rest) == (if op.Del? then Right(rest) else [op.line] + Right(rest))
    ensures Kept([op] + rest) == (if op.Keep? then [op.line] + Kept(rest) else Kept(rest))
  {
    assert ([op] + rest)[1..] == rest;
  }

  /** Correct on both sides, and the kept lines are as many as the table promised. */
  lemma {:induction false} WalkCorrect(a: seq<string>, b: seq<string>, i: nat, j: nat)
    requires i <= |a| && j <= |b|
    ensures Left(Walk(a, b, i, j)) == a[i..]
    ensures Right(Walk(a, b, i, j)) == b[j..]
    ensures |Kept(Walk(a, b, i, j))| == Lcs(a, b, i, j)
    decreases |a| - i + |b| - j
  {
    if i == |a| && j == |b| {
    } else if i < |a| && j < |b| && a[i] == b[j] {
      WalkCorrect(a, b, i + 1, j + 1);
      WalkCons(a, b, i, j, Keep(a[i]), Walk(a, b, i + 1, j + 1));
    } else if i < |a| && (j == |b| || Lcs(a, b, i + 1, j) >= Lcs(a, b, i, j + 1)) {
      WalkCorrect(a, b, i + 1, j);
      WalkCons(a, b, i, j, Del(a[i]), Walk(a, b, i + 1, j));
    } else {
      WalkCorrect(a, b, i, j + 1);
      WalkCons(a, b, i, j, Add(b[j]), Walk(a, b, i, j + 1));
    }
  }

  /** Putting one operation in front of a correct diff of the rest. */
  lemma WalkCons(a: seq<string>, b: seq<string>, i: nat, j: nat, op: Op, rest: seq<Op>)
    requires i <= |a| && j <= |b|
    requires !op.Add? ==> i < |a| && a[i] == op.line
    requires !op.Del? ==> j < |b| && b[j] == op.line
    requires Left(rest) == a[if op.Add? then i else i + 1..]
    requires Right(rest) == b[if op.Del? then j else j + 1..]
    ensures Left([op] + rest) == a[i..] && Right([op] + rest) == b[j..]
    ensures |Kept([op] + rest)| == |Kept(rest)| + (if op.Keep? then 1 else 0)
  {
    ConsMeaning(op, rest);
  }

  lemma {:induction false} KeptIsCommon(ops: seq<Op>)
    ensures Subsequence(Kept(ops), Left(ops)) && Subsequence(Kept(ops), Right(ops))
  {
    if ops == [] {
    } else {
      var op, rest := ops[0], ops[1..];
      KeptIsCommon(rest);
      assert ops == [op] + rest;
      ConsMeaning(op, rest);
      SubsequenceCons(op.line, Kept(rest), Left(rest));
      SubsequenceCons(op.line, Kept(rest), Right(rest));
    }
  }

  lemma SubsequenceCons(line: string, s: seq<string>, a: seq<string>)
    requires Subsequence(s, a)
    ensures Subsequence([line] + s, [line] + a) && Subsequence(s, [line] + a)
  {
    assert ([line] + s)[1..] == s && ([line] + a)[1..] == a;
    SubsequenceSkip(s, [line] + a);
  }

  /** The unchanged lines are a longest common subsequence, over all common subsequences. */
  lemma WalkOptimal(a: seq<string>, b: seq<string>)
    ensures Subsequence(Kept(Ops(a, b)), a) && Subsequence(Kept(Ops(a, b)), b)
    ensures forall s :: Subsequence(s, a) && Subsequence(s, b) ==> |s| <= |Kept(Ops(a, b))|
  {
    WalkCorrect(a, b, 0, 0);
    KeptIsCommon(Ops(a, b));
    assert a[0..] == a && b[0..] == b;
    forall s | Subsequence(s, a) && Subsequence(s, b)
      ensures |s| <= |Kept(Ops(a, b))|
    {
      LcsBounds(s, a, b, 0, 0);
    }
  }

  // ---- The text --------------------------------------------------------------------------------

  function Lines(text: string): seq<string>
  {
    Split(TrimSuffix(text, "\n"), '\n')
  }

  function Header(nameA: string, nameB: string): string
  {
    "--- " + nameA + "\n+++ " + nameB + "\n"
  }

  function Mark(op: Op): char
  {
    match op
    case Keep(_) => ' '
    case Del(_) => '-'
    case Add(_) => '+'
  }

  /** One line of output. */
  function Print(op: Op): string
  {
    [Mark(op)] + op.line + "\n"
  }

  function Render(ops: seq<Op>): string
  {
    if ops == [] then [] else Print(ops[0]) + Render(ops[1..])
  }

  lemma {:induction false} RenderAppend(ops: seq<Op>, op: Op)
    ensures Render(ops + [op]) == Render(ops) + Print(op)
  {
    if ops == [] {
      assert Render([op]) == Print(op) + Render([]);
    } else {
      RenderAppend(ops[1..], op);
      assert (ops + [op])[1..] == ops[1..] + [op];
    }
  }

  /** The whole output of the probe's diff, for two texts. */
  function Diff(nameA: string, a: string, nameB: string, b: string): string
  {
    if a == b then [] else Header(nameA, nameB) + Render(Ops(Lines(a), Lines(b)))
  }

  function ReadLine(line: string): Op
    requires line != []
  {
    if line[0] == '-' then Del(line[1..]) else if line[0] == '+' then Add(line[1..]) else Keep(line[1..])
  }

  /** Reads a rendered body back, line by line. */
  function Read(body: string): seq<Op>
    decreases |body|
  {
    var c := Cut(body, '\n');
    if !c.found || c.before == [] then [] else [ReadLine(c.before)] + Read(c.after)
  }

  lemma {:induction false} ReadRender(ops: seq<Op>)
    requires forall i :: 0 <= i < |ops| ==> '\n' !in ops[i].line
    ensures Read(Render(ops)) == ops
  {
    if ops == [] {
    } else {
      ReadRender(ops[1..]);
      ReadPrint(ops[0], Render(ops[1..]));
    }
  }

  lemma ReadPrint(op: Op, rest: string)
    requires '\n' !in op.line
    ensures Read(Print(op) + rest) == [op] + Read(rest)
  {
    var first := [Mark(op)] + op.line;
    assert Print(op) + rest == first + ['\n'] + rest;
    CutAt(first, '\n', rest);
    assert first[1..] == op.line;
  }

  lemma {:induction false} WalkLinesFree(a: seq<string>, b: seq<string>, i: nat, j: nat)
    requires i <= |a| && j <= |b|
    requires forall s :: s in a ==> '\n' !in s
    requires forall s :: s in b ==> '\n' !in s
    ensures forall k :: 0 <= k < |Walk(a, b, i, j)| ==> '\n' !in Walk(a, b, i, j)[k].line
    decreases |a| - i + |b| - j
  {
    if i == |a| && j == |b| {
    } else if i < |a| && j < |b| && a[i] == b[j] {
      WalkLinesFree(a, b, i + 1, j + 1);
    } else if i < |a| && (j == |b| || Lcs(a, b, i + 1, j) >= Lcs(a, b, i, j + 1)) {
      WalkLinesFree(a, b, i + 1, j);
    } else {
      WalkLinesFree(a, b, i, j + 1);
    }
  }

  /** From the diff text of two different texts alone, both texts can be read back, up to the one final
      newline each of them may have. */
  lemma DiffDeterminesBothTexts(nameA: string, a: string, nameB: string, b: string)
    requires a != b
    ensures var header, out := "--- " + nameA + "\n+++ " + nameB + "\n", Diff(nameA, a, nameB, b);
            && header <= out
            && var ops := Read(out[|header|..]);
               Join(Left(ops), "\n") == TrimSuffix(a, "\n") && Join(Right(ops), "\n") == TrimSuffix(b, "\n")
  {
    var la, lb := Lines(a), Lines(b);
    SplitPartsFree(TrimSuffix(a, "\n"), '\n');
    SplitPartsFree(TrimSuffix(b, "\n"), '\n');
    WalkLinesFree(la, lb, 0, 0);
    ReadRender(Ops(la, lb));
    WalkCorrect(la, lb, 0, 0);
    assert la[0..] == la && lb[0..] == lb;
    JoinSplit(TrimSuffix(a, "\n"), '\n');
    JoinSplit(TrimSuffix(b, "\n"), '\n');
  }

  /** The output is empty exactly for equal texts. */
  lemma EmptyIffEqual(nameA: string, a: string, nameB: string, b: string)
    ensures Diff(nameA, a, nameB, b) == [] <==> a == b
  {
    if a != b {
      assert |Header(nameA, nameB)| > 0;
    }
  }

  ghost predicate AllKept(ops: seq<Op>)
  {
    forall i :: 0 <= i < |ops| ==> ops[i].Keep?
  }

  lemma {:induction false} AllKeptIffEqualLines(a: seq<string>, b: seq<string>, i: nat, j: nat)
    requires i <= |a| && j <= |b|
    ensures AllKept(Walk(a, b, i, j)) <==> a[i..] == b[j..]
    decreases |a| - i + |b| - j
  {
    var ops := Walk(a, b, i, j);
    if i == |a| && j == |b| {
    } else if i < |a| && j < |b| && a[i] == b[j] {
      AllKeptIffEqualLines(a, b, i + 1, j + 1);
      var rest := Walk(a, b, i + 1, j + 1);
      assert ops[0].Keep? && forall k :: 0 <= k < |rest| ==> rest[k] == ops[k + 1];
      assert a[i..] == [a[i]] + a[i + 1..] && b[j..] == [b[j]] + b[j + 1..];
      assert a[i + 1..] == a[i..][1..] && b[j + 1..] == b[j..][1..];
    } else {
      assert |ops| > 0 && !ops[0].Keep?;
      assert a[i..] != b[j..] by {
        if i < |a| && j < |b| {
          assert a[i..][0] == a[i] && b[j..][0] == b[j];
        } else {
          assert |a[i..]| != |b[j..]|;
        }
      }
    }
  }

  /** A diff shows a "-" or "+" line exactly when the texts differ in more than one final newline: the
      texts "x" and "x\n" are different, so their diff is not empty, yet it marks no line. */
  lemma MarksALineIff(a: string, b: string)
    ensures !AllKept(Ops(Lines(a), Lines(b))) <==> TrimSuffix(a, "\n") != TrimSuffix(b, "\n")
  {
    AllKeptIffEqualLines(Lines(a), Lines(b), 0, 0);
    assert Lines(a)[0..] == Lines(a) && Lines(b)[0..] == Lines(b);
    JoinSplit(TrimSuffix(a, "\n"), '\n');
    JoinSplit(TrimSuffix(b, "\n"), '\n');
  }

  /** Texts that differ in one final newline: their diff is not empty, and marks no line. */
  lemma FinalNewlineOnly(nameA: string, a: string, nameB: string, b: string)
    requires a != b && TrimSuffix(a, "\n") == TrimSuffix(b, "\n")
    ensures a == b + "\n" || b == a + "\n"
    ensures Diff(nameA, a, nameB, b) != [] && AllKept(Ops(Lines(a), Lines(b)))
    ensures Left(Ops(Lines(a), Lines(b))) == Right(Ops(Lines(a), Lines(b))) == Lines(a)
  {
    EmptyIffEqual(nameA, a, nameB, b);
    MarksALineIff(a, b);
    WalkCorrect(Lines(a), Lines(b), 0, 0);
    assert Lines(a)[0..] == Lines(a) && Lines(b)[0..] == Lines(b);
  }

  // ---- The program -----------------------------------------------------------------------------

  method LineDiff(nameA: string, a: string, nameB: string, b: string) returns (out: string)
    ensures out == Diff(nameA, a, nameB, b)
  {
    if a == b {
      return "";
    }
    var la, lb := Lines(a), Lines(b);
    var lcs := FillTable(la, lb);
    out := WriteDiff(Header(nameA, nameB), la, lb, lcs);
  }

  ghost predicate IsTable(la: seq<string>, lb: seq<string>, lcs: array2<nat>, fromRow: nat)
    requires lcs.Length0 == |la| + 1 && lcs.Length1 == |lb| + 1
    reads lcs
  {
    forall i, j :: fromRow <= i <= |la| && 0 <= j <= |lb| ==> lcs[i, j] == Lcs(la, lb, i, j)
  }

  /** Fills the table from the last row and column to the first. */
  method FillTable(la: seq<string>, lb: seq<string>) returns (lcs: array2<nat>)
    ensures lcs.Length0 == |la| + 1 && lcs.Length1 == |lb| + 1
    ensures IsTable(la, lb, lcs, 0)
  {
    lcs := new nat[|la| + 1, |lb| + 1]((i, j) => 0);
    var i := |la|;
    while i > 0
      invariant 0 <= i <= |la|
      invariant IsTable(la, lb, lcs, i)
      invariant forall p :: 0 <= p < i ==> lcs[p, |lb|] == 0
    {
      i := i - 1;
      var j := |lb|;
      while j > 0
        invariant 0 <= j <= |lb|
        invariant IsTable(la, lb, lcs, i + 1)
        invariant forall q :: j <= q <= |lb| ==> lcs[i, q] == Lcs(la, lb, i, q)
        invariant forall p :: 0 <= p <= i ==> lcs[p, |lb|] == 0
      {
        j := j - 1;
        if la[i] == lb[j] {
          lcs[i, j] := lcs[i + 1, j + 1] + 1;
        } else {
          lcs[i, j] := Max(lcs[i + 1, j], lcs[i, j + 1]);
        }
      }
    }
  }

  /** Walks both lists with the table and appends one line per step. */
  method WriteDiff(header: string, la: seq<string>, lb: seq<string>, lcs: array2<nat>) returns (out: string)
    requires lcs.Length0 == |la| + 1 && lcs.Length1 == |lb| + 1
    requires IsTable(la, lb, lcs, 0)
    ensures out == header + Render(Ops(la, lb))
  {
    out := header;
    ghost var done: seq<Op> := [];
    var i, j := 0, 0;
    while i < |la| && j < |lb|
      invariant 0 <= i <= |la| && 0 <= j <= |lb|
      invariant out == header + Render(done) && done + Walk(la, lb, i, j) == Ops(la, lb)
      decreases |la| - i + |lb| - j
    {
      if la[i] == lb[j] {
        out, done := Append(header, done, out, Keep(la[i]), Walk(la, lb, i + 1, j + 1));
        i, j := i + 1, j + 1;
      } else if lcs[i + 1, j] >= lcs[i, j + 1] {
        out, done := Append(header, done, out, Del(la[i]), Walk(la, lb, i + 1, j));
        i := i + 1;
      } else {
        out, done := Append(header, done, out, Add(lb[j]), Walk(la, lb, i, j + 1));
        j := j + 1;
      }
    }
    while i < |la|
      invariant 0 <= i <= |la| && 0 <= j <= |lb| && (i == |la| || j == |lb|)
      invariant out == header + Render(done) && done + Walk(la, lb, i, j) == Ops(la, lb)
    {
      out, done := Append(header, done, out, Del(la[i]), Walk(la, lb, i + 1, j));
      i := i + 1;
    }
    while j < |lb|
      invariant i == |la| && 0 <= j <= |lb|
      invariant out == header + Render(done) && done + Walk(la, lb, i, j) == Ops(la, lb)
    {
      out, done := Append(header, done, out, Add(lb[j]), Walk(la, lb, i, j + 1));
      j := j + 1;
    }
    assert done == Ops(la, lb);
  }

  /** Writes one more line of the diff. */
  method Append(header: string, ghost done: seq<Op>, out: string, op: Op, ghost rest: seq<Op>) returns (out': string, ghost done': seq<Op>)
    requires out == header + Render(done)
    ensures out' == out + Print(op)
    ensures done' == done + [op]
    ensures out' == header + Render(done') && done + ([op] + rest) == done' + rest
  {
    out' := out + Print(op);
    done' := done + [op];
    Appended(header, done, out, op);
  }

  lemma Appended(header: string, done: seq<Op>, out: string, op: Op)
    requires out == header + Render(done)
    ensures out + Print(op) == header + Render(done + [op])
  {
    RenderAppend(done, op);
    assert header + Render(done) + Print(op) == header + (Render(done) + Print(op));
  }
}
