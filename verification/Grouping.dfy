/**
 Grouping a list by a key, in the order the keys first appear: what the feature generator does twice, with
 rows that share an execution and with scenarios of a family.  Items without a key stay on their own.
 */
module Grouping {
  import opened Text

  function Find<T>(gs: seq<seq<T>>, k: Option<string>, key: T -> Option<string>): (r: Option<nat>)
    ensures r.Some? ==> r.value < |gs| && gs[r.value] != [] && key(gs[r.value][0]) == k && k.Some?
    ensures r.None? && k.Some? ==> forall i :: 0 <= i < |gs| && gs[i] != [] ==> key(gs[i][0]) != k
    decreases |gs|
  {
    if gs == [] || k.None? then None
    else
      var n := |gs| - 1;
      if gs[n] != [] && key(gs[n][0]) == k then Some(n) else Find(gs[..n], k, key)
  }

  lemma FindIs<T>(gs: seq<seq<T>>, k: Option<string>, key: T -> Option<string>, j: nat)
    requires GroupsOk(gs, key) && j < |gs| && key(gs[j][0]) == k && k.Some?
    ensures Find(gs, k, key) == Some(j)
  {
    var i := Find(gs, k, key);
    assert GroupOk(gs[j], key);
    assert i.Some? && key(gs[i.value][0]) == key(gs[j][0]);
  }

  function Added<T>(gs: seq<seq<T>>, x: T, key: T -> Option<string>): seq<seq<T>>
  {
    var i := Find(gs, key(x), key);
    if i.Some? then gs[i.value := gs[i.value] + [x]] else gs + [[x]]
  }

  function Grouped<T>(xs: seq<T>, key: T -> Option<string>): seq<seq<T>>
  {
    if xs == [] then [] else Added(Grouped(xs[..|xs| - 1], key), xs[|xs| - 1], key)
  }

  function Flat<T>(gs: seq<seq<T>>): seq<T>
  {
    if gs == [] then [] else Flat(gs[..|gs| - 1]) + gs[|gs| - 1]
  }

  /** The items with key k, in their order. */
  function Select<T>(xs: seq<T>, k: string, key: T -> Option<string>): seq<T>
  {
    if xs == [] then []
    else Select(xs[..|xs| - 1], k, key) + (if key(xs[|xs| - 1]) == Some(k) then [xs[|xs| - 1]] else [])
  }

  predicate GroupOk<T>(g: seq<T>, key: T -> Option<string>)
  {
    g != [] && (forall i :: 0 <= i < |g| ==> key(g[i]) == key(g[0])) && (key(g[0]).None? ==> |g| == 1)
  }

  /** Groups have one key each, and no two groups have the same. */
  ghost predicate GroupsOk<T>(gs: seq<seq<T>>, key: T -> Option<string>)
  {
    && (forall i :: 0 <= i < |gs| ==> GroupOk(gs[i], key))
    && (forall i, j :: 0 <= i < j < |gs| && key(gs[i][0]).Some? ==> key(gs[i][0]) != key(gs[j][0]))
  }

  lemma {:induction false} GroupedOk<T>(xs: seq<T>, key: T -> Option<string>)
    ensures GroupsOk(Grouped(xs, key), key)
  {
    if xs != [] {
      GroupedOk(xs[..|xs| - 1], key);
      AddedOk(Grouped(xs[..|xs| - 1], key), xs[|xs| - 1], key);
    }
  }

  lemma AddedOk<T>(gs: seq<seq<T>>, x: T, key: T -> Option<string>)
    requires GroupsOk(gs, key)
    ensures GroupsOk(Added(gs, x, key), key)
  {
    var i := Find(gs, key(x), key);
    var r := Added(gs, x, key);
    forall j | 0 <= j < |r|
      ensures GroupOk(r[j], key)
    {
      if j < |gs| {
        assert GroupOk(gs[j], key);
      }
    }
  }

  /** A group is exactly the items with its key, in their order; a key without a group has no items. */
  ghost predicate Selected<T>(gs: seq<seq<T>>, xs: seq<T>, key: T -> Option<string>, k: string)
  {
    && (forall i :: 0 <= i < |gs| && gs[i] != [] && key(gs[i][0]) == Some(k) ==> gs[i] == Select(xs, k, key))
    && ((forall i :: 0 <= i < |gs| && gs[i] != [] ==> key(gs[i][0]) != Some(k)) ==> Select(xs, k, key) == [])
  }

  lemma {:induction false} GroupIsSelection<T>(xs: seq<T>, key: T -> Option<string>, k: string)
    ensures Selected(Grouped(xs, key), xs, key, k)
  {
    if xs != [] {
      var rest, x := xs[..|xs| - 1], xs[|xs| - 1];
      GroupIsSelection(rest, key, k);
      GroupedOk(rest, key);
      AddedSelected(Grouped(rest, key), rest, x, key, k);
      assert xs == rest + [x];
    }
  }

  lemma AddedSelected<T>(gs: seq<seq<T>>, rest: seq<T>, x: T, key: T -> Option<string>, k: string)
    requires GroupsOk(gs, key) && Selected(gs, rest, key, k)
    ensures Selected(Added(gs, x, key), rest + [x], key, k)
  {
    var i, r := Find(gs, key(x), key), Added(gs, x, key);
    assert (rest + [x])[..|rest|] == rest;
    assert Select(rest + [x], k, key) == Select(rest, k, key) + (if key(x) == Some(k) then [x] else []);
    assert forall j :: 0 <= j < |gs| ==> GroupOk(gs[j], key);
    if i.Some? {
      assert forall j :: 0 <= j < |gs| && j != i.value ==> r[j] == gs[j];
      assert key(r[i.value][0]) == key(gs[i.value][0]) == key(x);
    } else {
      assert r[|gs|] == [x] && forall j :: 0 <= j < |gs| ==> r[j] == gs[j];
      if key(x) == Some(k) {
        assert Select(rest, k, key) == [];
      }
    }
  }

  /** Nothing is lost and nothing is doubled. */
  lemma {:induction false} GroupedPartitions<T>(xs: seq<T>, key: T -> Option<string>)
    ensures multiset(Flat(Grouped(xs, key))) == multiset(xs)
  {
    if xs != [] {
      var rest, x := xs[..|xs| - 1], xs[|xs| - 1];
      GroupedPartitions(rest, key);
      FlatAdded(Grouped(rest, key), x, key);
      Snoc(rest, x);
      assert rest + [x] == xs;
    }
  }

  lemma Snoc<T>(s: seq<T>, x: T)
    ensures multiset(s + [x]) == multiset(s) + multiset{x}
  {
  }

  lemma FlatAdded<T>(gs: seq<seq<T>>, x: T, key: T -> Option<string>)
    ensures multiset(Flat(Added(gs, x, key))) == multiset(Flat(gs)) + multiset{x}
  {
    var i := Find(gs, key(x), key);
    if i.Some? {
      FlatUpdated(gs, i.value, x);
    } else {
      assert (gs + [[x]])[..|gs|] == gs;
    }
  }

  lemma {:induction false} FlatUpdated<T>(gs: seq<seq<T>>, i: nat, x: T)
    requires i < |gs|
    ensures multiset(Flat(gs[i := gs[i] + [x]])) == multiset(Flat(gs)) + multiset{x}
  {
    var n := |gs| - 1;
    var hs := gs[i := gs[i] + [x]];
    if i < n {
      FlatUpdated(gs[..n], i, x);
      assert hs[..n] == gs[..n][i := gs[i] + [x]];
    } else {
      assert hs[..n] == gs[..n];
    }
  }

  lemma {:induction false} FlatAppend<T>(gs: seq<seq<T>>, hs: seq<seq<T>>)
    ensures Flat(gs + hs) == Flat(gs) + Flat(hs)
  {
    if hs == [] {
      assert gs + hs == gs;
    } else {
      var n := |hs| - 1;
      FlatAppend(gs, hs[..n]);
      assert (gs + hs)[..|gs + hs| - 1] == gs + hs[..n];
    }
  }

  lemma {:induction false} InFlat<T>(gs: seq<seq<T>>, x: T)
    ensures x in Flat(gs) <==> exists i :: 0 <= i < |gs| && x in gs[i]
  {
    if gs != [] {
      var n := |gs| - 1;
      InFlat(gs[..n], x);
      if x in Flat(gs) && x !in gs[n] {
        var i :| 0 <= i < n && x in gs[..n][i];
        assert x in gs[i];
      }
      if i :| 0 <= i < |gs| && x in gs[i] {
        assert i < n ==> x in gs[..n][i];
      }
    }
  }

  // ---- Order does not matter for what is collected -------------------------------------------------

  function FlatMap<A, B>(xs: seq<A>, f: A -> seq<B>): seq<B>
  {
    if xs == [] then [] else FlatMap(xs[..|xs| - 1], f) + f(xs[|xs| - 1])
  }

  lemma {:induction false} FlatMapAppend<A, B>(xs: seq<A>, ys: seq<A>, f: A -> seq<B>)
    ensures FlatMap(xs + ys, f) == FlatMap(xs, f) + FlatMap(ys, f)
  {
    if ys == [] {
      assert xs + ys == xs;
    } else {
      var n := |ys| - 1;
      FlatMapAppend(xs, ys[..n], f);
      assert (xs + ys)[..|xs + ys| - 1] == xs + ys[..n];
      assert (xs + ys)[|xs + ys| - 1] == ys[n];
    }
  }

  lemma FlatMapOne<A, B>(x: A, f: A -> seq<B>)
    ensures FlatMap([x], f) == f(x)
  {
    assert FlatMap([x][..0], f) == [];
  }

  /** Taking out the item at i takes out what it maps to. */
  lemma FlatMapWithout<A, B>(xs: seq<A>, i: nat, f: A -> seq<B>)
    requires i < |xs|
    ensures multiset(FlatMap(xs, f)) == multiset(FlatMap(xs[..i] + xs[i + 1..], f)) + multiset(f(xs[i]))
  {
    var a, b := xs[..i], xs[i + 1..];
    assert xs == a + ([xs[i]] + b);
    FlatMapAppend(a, [xs[i]] + b, f);
    FlatMapAppend([xs[i]], b, f);
    FlatMapAppend(a, b, f);
    FlatMapOne(xs[i], f);
  }

  lemma {:induction false} FlatMapPermutes<A, B>(xs: seq<A>, ys: seq<A>, f: A -> seq<B>)
    requires multiset(xs) == multiset(ys)
    ensures multiset(FlatMap(xs, f)) == multiset(FlatMap(ys, f))
  {
    if xs == [] {
      assert |multiset(ys)| == |ys|;
    } else {
      var n := |xs| - 1;
      var x := xs[n];
      assert x in multiset(ys);
      var i :| 0 <= i < |ys| && ys[i] == x;
      var rest := ys[..i] + ys[i + 1..];
      WithoutOne(ys, i);
      Snoc(xs[..n], x);
      assert xs[..n] + [x] == xs;
      assert multiset(xs[..n]) == multiset(xs) - multiset{x} == multiset(rest);
      FlatMapPermutes(xs[..n], rest, f);
      FlatMapWithout(ys, i, f);
    }
  }

  lemma WithoutOne<T>(ys: seq<T>, i: nat)
    requires i < |ys|
    ensures multiset(ys) == multiset(ys[..i] + ys[i + 1..]) + multiset{ys[i]}
  {
    assert ys == ys[..i] + [ys[i]] + ys[i + 1..];
  }

  lemma {:induction false} FlatIsFlatMap<T>(gs: seq<seq<T>>, f: seq<T> -> seq<T>)
    requires forall g :: f(g) == g
    ensures Flat(gs) == FlatMap(gs, f)
  {
    if gs != [] {
      FlatIsFlatMap(gs[..|gs| - 1], f);
    }
  }

  lemma FlatPermutes<T>(gs: seq<seq<T>>, hs: seq<seq<T>>)
    requires multiset(gs) == multiset(hs)
    ensures multiset(Flat(gs)) == multiset(Flat(hs))
  {
    var f := (g: seq<T>) => g;
    FlatIsFlatMap(gs, f);
    FlatIsFlatMap(hs, f);
    FlatMapPermutes(gs, hs, f);
  }

  /** Grouping twice still loses and doubles nothing. */
  lemma GroupedTwicePartitions<T>(xs: seq<T>, key: T -> Option<string>, outer: seq<T> -> Option<string>)
    ensures multiset(Flat(Flat(Grouped(Grouped(xs, key), outer)))) == multiset(xs)
  {
    var gs := Grouped(xs, key);
    GroupedPartitions(xs, key);
    GroupedPartitions(gs, outer);
    FlatPermutes(Flat(Grouped(gs, outer)), gs);
  }
}
