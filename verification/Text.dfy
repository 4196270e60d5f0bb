/**
 Strings as the Go and JavaScript sources handle them: cutting at a separator, splitting into lines
 and joining again.  A Go string or byte slice is a sequence of characters, one for each byte (or, where
 the source ranges over runes, one for each rune).
 */
module Text {

  datatype Option<+T> = None | Some(value: T)

  /** Splits at every `sep`; the result always has at least one part. */
  function Split(s: string, sep: char): (parts: seq<string>)
    ensures |parts| >= 1
  {
    if s == [] then [[]] else Push(s[0], Split(s[1..], sep), sep)
  }

  /** The parts of a text from its first character and the parts of the rest. */
  function Push(c: char, parts: seq<string>, sep: char): (r: seq<string>)
    requires parts != []
    ensures r != []
  {
    if c == sep then [[]] + parts else [[c] + parts[0]] + parts[1..]
  }

  /** The parts with `sep` between them. */
  function Join(parts: seq<string>, sep: string): string
  {
    if parts == [] then []
    else if |parts| == 1 then parts[0]
    else parts[0] + sep + Join(parts[1..], sep)
  }

  lemma JoinPush(c: char, parts: seq<string>, sep: char)
    requires parts != []
    ensures Join(Push(c, parts, sep), [sep]) == [c] + Join(parts, [sep])
  {
    var r := Push(c, parts, sep);
    if c == sep {
      assert r[1..] == parts && r[0] == [];
      assert Join(r, [sep]) == [] + [sep] + Join(parts, [sep]);
    } else {
      assert r[1..] == parts[1..] && r[0] == [c] + parts[0];
      if |parts| > 1 {
        var rest := Join(parts[1..], [sep]);
        assert Join(r, [sep]) == ([c] + parts[0]) + [sep] + rest;
        assert ([c] + parts[0]) + [sep] + rest == [c] + (parts[0] + [sep] + rest);
      }
    }
  }

  lemma {:induction false} JoinSplit(s: string, sep: char)
    ensures Join(Split(s, sep), [sep]) == s
  {
    if s == [] {
    } else {
      JoinSplit(s[1..], sep);
      JoinPush(s[0], Split(s[1..], sep), sep);
      assert s == [s[0]] + s[1..];
    }
  }

  lemma {:induction false} SplitPartsFree(s: string, sep: char)
    ensures forall p :: p in Split(s, sep) ==> sep !in p
  {
    if s == [] {
    } else {
      SplitPartsFree(s[1..], sep);
      var rest := Split(s[1..], sep);
      assert rest[0] in rest;
      assert forall p :: p in rest[1..] ==> p in rest;
    }
  }

  lemma {:induction false} SplitFree(s: string, sep: char)
    requires sep !in s
    ensures Split(s, sep) == [s]
  {
    if s == [] {
    } else {
      SplitFree(s[1..], sep);
      assert s == [s[0]] + s[1..];
    }
  }

  lemma {:induction false} SplitConcat(p: string, sep: char, rest: string)
    ensures Split(p + [sep] + rest, sep) == Split(p, sep) + Split(rest, sep)
  {
    var s := p + [sep] + rest;
    if p == [] {
      assert s[1..] == rest;
    } else {
      SplitConcat(p[1..], sep, rest);
      assert s[1..] == p[1..] + [sep] + rest;
      SplitPush(p[0], Split(p[1..], sep), Split(rest, sep), sep);
    }
  }

  lemma SplitPush(c: char, parts: seq<string>, more: seq<string>, sep: char)
    requires parts != []
    ensures Push(c, parts + more, sep) == Push(c, parts, sep) + more
  {
    assert (parts + more)[1..] == parts[1..] + more;
  }

  /** What is put in front of a text goes to its first part. */
  lemma {:induction false} SplitPrefix(p: string, s: string, sep: char)
    requires sep !in p
    ensures Split(p + s, sep) == [p + Split(s, sep)[0]] + Split(s, sep)[1..]
  {
    var parts := Split(s, sep);
    if p == [] {
      assert p + s == s && p + parts[0] == parts[0];
      assert [parts[0]] + parts[1..] == parts;
    } else {
      SplitPrefix(p[1..], s, sep);
      assert (p + s)[1..] == p[1..] + s && (p + s)[0] == p[0] != sep;
      var rest := [p[1..] + parts[0]] + parts[1..];
      assert rest[0] == p[1..] + parts[0] && rest[1..] == parts[1..];
      assert [p[0]] + (p[1..] + parts[0]) == p + parts[0];
    }
  }

  /** Splitting undoes joining. */
  lemma {:induction false} SplitJoin(parts: seq<string>, sep: char)
    requires parts != [] && forall i :: 0 <= i < |parts| ==> sep !in parts[i]
    ensures Split(Join(parts, [sep]), sep) == parts
  {
    if |parts| == 1 {
      SplitFree(parts[0], sep);
    } else {
      SplitJoin(parts[1..], sep);
      SplitConcat(parts[0], sep, Join(parts[1..], [sep]));
      SplitFree(parts[0], sep);
    }
  }

  /** The first `sep` of a text is in one place. */
  lemma FirstSeparator(p: string, r: string, p': string, r': string, sep: char)
    requires sep !in p && sep !in p'
    requires p + [sep] + r == p' + [sep] + r'
    ensures p == p' && r == r'
  {
    var s, s' := p + [sep] + r, p' + [sep] + r';
    assert s[|p|] == sep && s'[|p|] == sep && s'[|p'|] == sep && s[|p'|] == sep;
    assert |p| == |p'|;
    assert s[..|p|] == p && s'[..|p|] == p';
    assert s[|p| + 1..] == r && s'[|p| + 1..] == r';
  }

  /** What a Go `strings.Cut` returns. */
  datatype CutResult = CutResult(before: string, after: string, found: bool)

  /** Cuts at the first `sep`. */
  function Cut(s: string, sep: char): (r: CutResult)
    ensures r.found <==> sep in s
    ensures r.found ==> sep !in r.before && s == r.before + [sep] + r.after
    ensures !r.found ==> r.before == s && r.after == []
  {
    if s == [] then CutResult([], [], false)
    else if s[0] == sep then CutResult([], s[1..], true)
    else
      var r := Cut(s[1..], sep);
      CutResult([s[0]] + r.before, r.after, r.found)
  }

  lemma CutAt(before: string, sep: char, after: string)
    requires sep !in before
    ensures Cut(before + [sep] + after, sep) == CutResult(before, after, true)
  {
    var s := before + [sep] + after;
    assert s[|before|] == sep;
    var r := Cut(s, sep);
    FirstSeparator(before, after, r.before, r.after, sep);
  }

  function TrimSuffix(s: string, suffix: string): (r: string)
    ensures r == s || r + suffix == s
  {
    if |suffix| <= |s| && s[|s| - |suffix|..] == suffix then s[..|s| - |suffix|] else s
  }

  predicate HasPrefix(s: string, prefix: string)
  {
    prefix <= s
  }

  function Max(a: nat, b: nat): nat
  {
    if a >= b then a else b
  }

  /** The white space that Go's `strings.TrimSpace` trims. */
  predicate IsSpace(c: char)
  {
    var n := c as int;
    || 9 <= n <= 13 || n == 32 || n == 0x85 || n == 0xA0 || n == 0x1680 || 0x2000 <= n <= 0x200A
    || n == 0x2028 || n == 0x2029 || n == 0x202F || n == 0x205F || n == 0x3000
  }

  function TrimLeft(s: string, drop: char -> bool): (r: string)
    ensures r == s || |r| < |s|
    ensures r == [] || !drop(r[0])
    ensures s != [] && !drop(s[0]) ==> r == s
  {
    if s != [] && drop(s[0]) then TrimLeft(s[1..], drop) else s
  }

  lemma {:induction false} TrimLeftAll(p: string, t: string, drop: char -> bool)
    requires (forall i :: 0 <= i < |p| ==> drop(p[i])) && (t == "" || !drop(t[0]))
    ensures TrimLeft(p + t, drop) == t
  {
    if p == "" {
      assert p + t == t;
    } else {
      assert (p + t)[1..] == p[1..] + t;
      TrimLeftAll(p[1..], t, drop);
    }
  }

  function TrimRight(s: string, drop: char -> bool): (r: string)
    ensures r <= s
    ensures r == [] || !drop(r[|r| - 1])
    ensures s != [] && !drop(s[|s| - 1]) ==> r == s
  {
    if s != [] && drop(s[|s| - 1]) then TrimRight(s[..|s| - 1], drop) else s
  }

  function TrimSpace(s: string): (r: string)
    ensures |r| <= |s|
  {
    TrimRight(TrimLeft(s, IsSpace), IsSpace)
  }

  /** Nothing to trim at either end. */
  predicate Trimmed(s: string)
  {
    s != [] ==> !IsSpace(s[0]) && !IsSpace(s[|s| - 1])
  }

  lemma TrimSpaceIff(s: string)
    ensures TrimSpace(s) == s <==> Trimmed(s)
  {
  }
}
