/**
 The authentication challenge of a registry (section 11.6.1 of RFC 9110): a scheme and parameters, whose
 values may be quoted.
 */
module Challenge {
  import opened Text

  datatype Parsed = Parsed(scheme: string, params: map<string, string>)

  predicate Separator(c: char)
  {
    c == ' ' || c == ','
  }

  function LowerChar(c: char): char
  {
    if 'A' <= c <= 'Z' then 'a' + (c - 'A') else c
  }

  /** In lower case: no capital, and otherwise the same letters. */
  lemma LowerMeans(s: string)
    ensures |Lower(s)| == |s|
    ensures forall i :: 0 <= i < |s| && !('A' <= s[i] <= 'Z') ==> Lower(s)[i] == s[i]
    ensures forall i :: 0 <= i < |s| && 'A' <= s[i] <= 'Z' ==> Lower(s)[i] as int == s[i] as int + 32
  {
  }

  function Lower(s: string): string
  {
    seq(|s|, i requires 0 <= i < |s| => LowerChar(s[i]))
  }

  /** Parameters up to the first that cannot be read. */
  function Params(rest: string, params: map<string, string>): map<string, string>
    decreases |rest|
  {
    if rest == "" then params
    else
      var r := TrimLeft(rest, Separator);
      var key := Cut(r, '=');
      if !key.found then params
      else if HasPrefix(key.after, "\"") then
        var value := Cut(key.after[1..], '"');
        if !value.found then params else Params(value.after, params[Lower(TrimSpace(key.before)) := value.before])
      else
        var value := Cut(key.after, ',');
        Params(value.after, params[Lower(TrimSpace(key.before)) := value.before])
  }

  function Parse(h: string): Parsed
  {
    var cut := Cut(TrimSpace(h), ' ');
    Parsed(cut.before, Params(cut.after, map[]))
  }

  method ParseChallenge(h: string) returns (scheme: string, params: map<string, string>)
    ensures Parsed(scheme, params) == Parse(h)
  {
    var cut := Cut(TrimSpace(h), ' ');
    scheme, params := cut.before, map[];
    var rest := cut.after;
    while rest != ""
      invariant Params(rest, params) == Params(cut.after, map[])
      decreases |rest|
    {
      rest := TrimLeft(rest, Separator);
      var key := Cut(rest, '=');
      if !key.found {
        return;
      }
      var value: string;
      if HasPrefix(key.after, "\"") {
        var quoted := Cut(key.after[1..], '"');
        if !quoted.found {
          return;
        }
        value, rest := quoted.before, quoted.after;
      } else {
        var plain := Cut(key.after, ',');
        value, rest := plain.before, plain.after;
      }
      params := params[Lower(TrimSpace(key.before)) := value];
    }
  }

  // ---- Printing ------------------------------------------------------------------------------------

  /** A parameter as it is printed, after its separator. */
  datatype Param = Param(separator: string, key: string, value: string, quoted: bool)

  function PrintedValue(p: Param): string
  {
    if p.quoted then "\"" + p.value + "\"" else p.value
  }

  function PrintedParams(ps: seq<Param>): string
  {
    if ps == [] then "" else ps[0].separator + (ps[0].key + "=" + (PrintedValue(ps[0]) + PrintedParams(ps[1..])))
  }

  function Printed(scheme: string, ps: seq<Param>): string
  {
    if ps == [] then scheme else scheme + " " + PrintedParams(ps)
  }

  /** Spaces and commas only. */
  predicate Spaced(s: string)
  {
    forall i :: 0 <= i < |s| ==> s[i] == ' ' || s[i] == ','
  }

  predicate ParamOk(p: Param)
  {
    && Spaced(p.separator)
    && '=' !in p.key && Trimmed(p.key) && (p.key != "" ==> p.key[0] != ',')
    && (if p.quoted then '"' !in p.value else ',' !in p.value && !HasPrefix(p.value, "\""))
  }

  /** An unquoted value ends at a comma or with the header, whose white space is trimmed. */
  predicate ParamsOk(ps: seq<Param>)
  {
    && (forall i :: 0 <= i < |ps| ==> ParamOk(ps[i]))
    && (forall i :: 0 <= i < |ps| - 1 && !ps[i].quoted ==> HasPrefix(ps[i + 1].separator, ","))
    && (ps != [] && !ps[|ps| - 1].quoted ==> Trimmed(ps[|ps| - 1].value))
  }

  predicate SchemeOk(s: string)
  {
    s != "" && forall i :: 0 <= i < |s| ==> !IsSpace(s[i])
  }

  /** The printed parameters as a map, keys in lower case, a later one in place of an earlier one. */
  function Collected(ps: seq<Param>, params: map<string, string>): map<string, string>
  {
    if ps == [] then params else Collected(ps[1..], params[Lower(ps[0].key) := ps[0].value])
  }

  lemma TrimLeftOne(c: char, s: string, drop: char -> bool)
    requires drop(c)
    ensures TrimLeft([c] + s, drop) == TrimLeft(s, drop)
  {
    assert ([c] + s)[1..] == s;
  }

  /** A separator in front changes nothing. */
  lemma ParamsSkip(c: char, s: string, params: map<string, string>)
    requires Separator(c)
    ensures Params([c] + s, params) == Params(s, params)
  {
    TrimLeftOne(c, s, Separator);
    if s == "" {
      assert TrimLeft([c] + s, Separator) == "";
    }
  }

  lemma CutMissing(s: string, sep: char)
    requires sep !in s
    ensures Cut(s, sep) == CutResult(s, "", false)
  {
  }

  lemma SpacedSeparates(s: string)
    requires Spaced(s)
    ensures forall i :: 0 <= i < |s| ==> Separator(s[i])
  {
  }

  /** Up to the value. */
  lemma ReadKey(p: Param, after: string)
    requires ParamOk(p)
    ensures TrimLeft(p.separator + (p.key + "=" + after), Separator) == p.key + "=" + after
    ensures Cut(p.key + "=" + after, '=') == CutResult(p.key, after, true)
  {
    var t := p.key + "=" + after;
    assert t[0] == if p.key == "" then '=' else p.key[0];
    SpacedSeparates(p.separator);
    TrimLeftAll(p.separator, t, Separator);
    CutAt(p.key, '=', after);
  }

  lemma ReadQuoted(value: string, rest: string)
    requires '"' !in value
    ensures HasPrefix("\"" + value + "\"" + rest, "\"")
    ensures Cut(("\"" + value + "\"" + rest)[1..], '"') == CutResult(value, rest, true)
  {
    var after := "\"" + value + "\"" + rest;
    assert after[1..] == value + ['"'] + rest;
    CutAt(value, '"', rest);
  }

  /** One printed parameter is read, and reading goes on after it. */
  lemma ReadOne(p: Param, rest: string, params: map<string, string>)
    requires ParamOk(p) && (!p.quoted ==> rest == "" || rest[0] == ',')
    ensures Params(p.separator + (p.key + "=" + (PrintedValue(p) + rest)), params) == Params(rest, params[Lower(p.key) := p.value])
  {
    TrimSpaceIff(p.key);
    if p.quoted {
      ReadOneQuoted(p, rest, params);
    } else {
      ReadOnePlain(p, rest, params);
    }
  }

  lemma ReadOneQuoted(p: Param, rest: string, params: map<string, string>)
    requires ParamOk(p) && p.quoted && TrimSpace(p.key) == p.key
    ensures Params(p.separator + (p.key + "=" + (PrintedValue(p) + rest)), params) == Params(rest, params[Lower(p.key) := p.value])
  {
    ReadKey(p, PrintedValue(p) + rest);
    ReadQuoted(p.value, rest);
  }

  lemma ReadOnePlain(p: Param, rest: string, params: map<string, string>)
    requires ParamOk(p) && !p.quoted && (rest == "" || rest[0] == ',') && TrimSpace(p.key) == p.key
    ensures Params(p.separator + (p.key + "=" + (p.value + rest)), params) == Params(rest, params[Lower(p.key) := p.value])
  {
    ReadKey(p, p.value + rest);
    ReadPlain(p.value, rest);
    PlainStep(p.separator + (p.key + "=" + (p.value + rest)), p.key, p.value, rest, params);
    RestSkips(rest, params[Lower(p.key) := p.value]);
  }

  lemma RestSkips(rest: string, params: map<string, string>)
    requires rest == "" || rest[0] == ','
    ensures Params(if rest == "" then "" else rest[1..], params) == Params(rest, params)
  {
    if rest != "" {
      ParamsSkip(rest[0], rest[1..], params);
      assert rest == [rest[0]] + rest[1..];
    }
  }

  lemma PlainStep(s: string, key: string, value: string, rest: string, params: map<string, string>)
    requires s != "" && TrimSpace(key) == key && !HasPrefix(value + rest, "\"")
    requires Cut(TrimLeft(s, Separator), '=') == CutResult(key, value + rest, true)
    requires Cut(value + rest, ',').before == value && Cut(value + rest, ',').after == (if rest == "" then "" else rest[1..])
    ensures Params(s, params) == Params(if rest == "" then "" else rest[1..], params[Lower(key) := value])
  {
  }

  lemma ReadPlain(value: string, rest: string)
    requires ',' !in value && !HasPrefix(value, "\"") && (rest == "" || rest[0] == ',')
    ensures !HasPrefix(value + rest, "\"")
    ensures Cut(value + rest, ',').before == value && Cut(value + rest, ',').after == (if rest == "" then "" else rest[1..])
  {
    if rest == "" {
      assert value + rest == value;
      CutMissing(value, ',');
    } else {
      assert rest == [','] + rest[1..];
      assert value + rest == value + [','] + rest[1..];
      CutAt(value, ',', rest[1..]);
    }
    if value + rest != "" {
      assert (value + rest)[0] == if value == "" then ',' else value[0];
    }
  }

  lemma {:induction false} ParamsUndoPrinting(ps: seq<Param>, params: map<string, string>)
    requires ParamsOk(ps)
    ensures Params(PrintedParams(ps), params) == Collected(ps, params)
  {
    if ps != [] {
      ParamsUndoPrinting(ps[1..], params[Lower(ps[0].key) := ps[0].value]);
      if |ps| > 1 && !ps[0].quoted {
        assert HasPrefix(ps[1].separator, ",");
        assert PrintedParams(ps[1..])[0] == ',';
      }
      ReadOne(ps[0], PrintedParams(ps[1..]), params);
    }
  }

  lemma LastOf(a: string, b: string)
    requires b != ""
    ensures (a + b)[|a + b| - 1] == b[|b| - 1]
  {
  }

  predicate EndsTrimmed(s: string)
  {
    s != "" && !IsSpace(s[|s| - 1])
  }

  lemma OneEndsTrimmed(p: Param, rest: string)
    requires if rest == "" then ParamOk(p) && (p.quoted || Trimmed(p.value)) else EndsTrimmed(rest)
    ensures EndsTrimmed(p.separator + (p.key + "=" + (PrintedValue(p) + rest)))
  {
    var v := PrintedValue(p) + rest;
    if rest != "" {
      LastOf(PrintedValue(p), rest);
    } else {
      assert v == PrintedValue(p);
      if p.quoted {
        LastOf("\"" + p.value, "\"");
      }
    }
    if v == "" {
      assert p.key + "=" + v == p.key + "=";
      LastOf(p.key, "=");
    } else {
      LastOf(p.key + "=", v);
    }
    LastOf(p.separator, p.key + "=" + v);
  }

  lemma {:induction false} PrintedEndsTrimmed(ps: seq<Param>)
    requires ParamsOk(ps) && ps != []
    ensures EndsTrimmed(PrintedParams(ps))
  {
    if |ps| > 1 {
      PrintedEndsTrimmed(ps[1..]);
    } else {
      assert PrintedParams(ps[1..]) == "";
    }
    OneEndsTrimmed(ps[0], PrintedParams(ps[1..]));
  }

  /** Parsing undoes printing, for every scheme and all parameters, quoted or not, however separated. */
  lemma ParseUndoesPrinting(scheme: string, ps: seq<Param>)
    requires SchemeOk(scheme) && ParamsOk(ps)
    ensures Parse(Printed(scheme, ps)) == Parsed(scheme, Collected(ps, map[]))
  {
    var h := Printed(scheme, ps);
    if ps == [] {
      TrimSpaceIff(h);
      CutMissing(scheme, ' ');
    } else {
      var s := PrintedParams(ps);
      PrintedEndsTrimmed(ps);
      assert h[0] == scheme[0] && h[|h| - 1] == s[|s| - 1];
      TrimSpaceIff(h);
      assert h == scheme + [' '] + s;
      CutAt(scheme, ' ', s);
      ParamsUndoPrinting(ps, map[]);
    }
  }

  ghost predicate KeysApart(ps: seq<Param>)
  {
    forall i, j :: 0 <= i < j < |ps| ==> Lower(ps[i].key) != Lower(ps[j].key)
  }

  /** With keys that differ, even in lower case, that map has each parameter's value under its key and no
      other key. */
  lemma {:induction false} CollectedHas(ps: seq<Param>, params: map<string, string>)
    requires KeysApart(ps) && forall i :: 0 <= i < |ps| ==> Lower(ps[i].key) !in params
    ensures forall i :: 0 <= i < |ps| ==> Lower(ps[i].key) in Collected(ps, params) && Collected(ps, params)[Lower(ps[i].key)] == ps[i].value
    ensures forall k :: k in Collected(ps, params) <==> k in params || exists i :: 0 <= i < |ps| && Lower(ps[i].key) == k
    ensures forall k :: k in params ==> Collected(ps, params)[k] == params[k]
  {
    if ps != [] {
      var more := params[Lower(ps[0].key) := ps[0].value];
      CollectedHas(ps[1..], more);
      forall i | 0 <= i < |ps|
        ensures Lower(ps[i].key) in Collected(ps, params) && Collected(ps, params)[Lower(ps[i].key)] == ps[i].value
      {
        if i > 0 {
          assert ps[i] == ps[1..][i - 1];
        }
      }
      forall k | k in Collected(ps, params) && k !in params
        ensures exists i :: 0 <= i < |ps| && Lower(ps[i].key) == k
      {
        if k != Lower(ps[0].key) {
          var i :| 0 <= i < |ps| - 1 && Lower(ps[1..][i].key) == k;
          assert Lower(ps[i + 1].key) == k;
        }
      }
    }
  }
}
