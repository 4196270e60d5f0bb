/**
 The admission provider around the verifier: the trust policy read again and again from its file, the answer
 to a request for several images, and the latency histogram.
 */
module Provider {
  import opened Text
  import opened Profile

  // ---- The trust policy ------------------------------------------------------------------------------

  /** The hexadecimal hash of a file. */
  type Hash = s: string | |s| == 64 witness seq(64, i => '0')

  /** A policy file as read: `keys` is None when the key block does not parse. */
  datatype File = Unreadable | Malformed | Document(repositories: seq<string>, keys: Option<seq<PublicKey>>, hash: Hash)

  function Prefixes(repositories: seq<string>): seq<string>
  {
    if repositories == [] then []
    else
      var r := TrimSpace(repositories[|repositories| - 1]);
      Prefixes(repositories[..|repositories| - 1]) + (if r != "" then [r] else [])
  }

  /** The policy of a file, None when the file is not valid. */
  function PolicyOf(f: File): (p: Option<Policy>)
    ensures p.Some? ==> |p.value.revision| == 16
  {
    if !f.Document? || f.keys.None? || Prefixes(f.repositories) == [] then None
    else Some(Policy(Prefixes(f.repositories), f.keys.value, f.hash[..16]))
  }

  method ParsePolicy(f: File) returns (p: Option<Policy>)
    ensures p == PolicyOf(f)
  {
    if !f.Document? {
      return None;
    }
    var prefixes := [];
    for i := 0 to |f.repositories|
      invariant prefixes == Prefixes(f.repositories[..i])
    {
      assert f.repositories[..i + 1][..i] == f.repositories[..i];
      var r := TrimSpace(f.repositories[i]);
      if r != "" {
        prefixes := prefixes + [r];
      }
    }
    assert f.repositories[..|f.repositories|] == f.repositories;
    if prefixes == [] || f.keys.None? {
      return None;
    }
    return Some(Policy(prefixes, f.keys.value, f.hash[..16]));
  }

  /** `installed` is the verifier's policy and `applied` how often one was installed. */
  datatype TrustState = TrustState(revision: string, failed: bool, installed: Policy, applied: nat)

  function Loaded(s: TrustState, f: File): TrustState
  {
    var p := PolicyOf(f);
    if p.None? then s.(failed := true, revision := "")
    else if p.value.revision != s.revision then
      TrustState(p.value.revision, false, p.value, s.applied + 1)
    else s.(failed := false)
  }

  const UNLOADED := TrustState("", false, Policy([], [], ""), 0)

  class Trust {
    var revision: string
    var failed: bool
    var installed: Policy
    ghost var applied: nat

    ghost function Abs(): TrustState
      reads this
    {
      TrustState(revision, failed, installed, applied)
    }

    constructor ()
      ensures Abs() == UNLOADED
    {
      revision, failed, installed, applied := "", false, Policy([], [], ""), 0;
    }

    method Load(f: File) returns (ok: bool)
      modifies this
      ensures Abs() == Loaded(old(Abs()), f) && (ok <==> PolicyOf(f).Some?)
    {
      var p := ParsePolicy(f);
      if p.None? {
        failed, revision := true, "";
        return false;
      }
      if p.value.revision != revision {
        installed, applied := p.value, applied + 1;
        revision := p.value.revision;
      }
      failed := false;
      return true;
    }
  }

  function LoadedAll(s: TrustState, files: seq<File>): TrustState
  {
    if files == [] then s else Loaded(LoadedAll(s, files[..|files| - 1]), files[|files| - 1])
  }

  ghost predicate Consistent(s: TrustState)
  {
    (s.failed ==> s.revision == "") && (s.revision != "" ==> s.installed.revision == s.revision)
  }

  lemma {:induction false} LoadsStayConsistent(files: seq<File>)
    ensures Consistent(LoadedAll(UNLOADED, files))
  {
    if files != [] {
      LoadsStayConsistent(files[..|files| - 1]);
    }
  }

  /** Over every run of file reads: the provider answers if and only if the last file read is valid, and then
      the installed policy, the remembered revision and the last file agree on the revision. */
  lemma AnswersByTheLastFile(files: seq<File>)
    requires files != []
    ensures var s, p := LoadedAll(UNLOADED, files), PolicyOf(files[|files| - 1]);
            && (s.failed <==> p.None?)
            && (!s.failed ==> s.installed.revision == s.revision == p.value.revision)
  {
    LoadsStayConsistent(files[..|files| - 1]);
  }

  predicate SameRevision(p: Option<Policy>, q: Option<Policy>)
  {
    p.Some? && q.Some? && p.value.revision == q.value.revision
  }

  /** Among these files the revision tells the policy. */
  ghost predicate RevisionsTell(files: seq<File>)
  {
    forall i, j :: 0 <= i < |files| && 0 <= j < |files| && SameRevision(PolicyOf(files[i]), PolicyOf(files[j])) ==>
      PolicyOf(files[i]) == PolicyOf(files[j])
  }

  lemma {:induction false} InstalledFromSomeFile(files: seq<File>)
    ensures var s := LoadedAll(UNLOADED, files);
            s.revision != "" ==> s.revision == s.installed.revision && exists i :: 0 <= i < |files| && PolicyOf(files[i]) == Some(s.installed)
  {
    if files != [] {
      var n := |files| - 1;
      InstalledFromSomeFile(files[..n]);
      var s, t := LoadedAll(UNLOADED, files[..n]), LoadedAll(UNLOADED, files);
      if t.revision != "" {
        if t.applied == s.applied {
          var i :| 0 <= i < n && PolicyOf(files[..n][i]) == Some(s.installed);
          assert PolicyOf(files[i]) == Some(t.installed);
        } else {
          assert PolicyOf(files[n]) == Some(t.installed);
        }
      }
    }
  }

  /** Where equal revisions mean equal policies, the installed policy is that of the last file. */
  lemma InstalledIsTheLastFile(files: seq<File>)
    requires files != [] && RevisionsTell(files) && !LoadedAll(UNLOADED, files).failed
    ensures PolicyOf(files[|files| - 1]) == Some(LoadedAll(UNLOADED, files).installed)
  {
    AnswersByTheLastFile(files);
    InstalledFromSomeFile(files);
    var i :| 0 <= i < |files| && PolicyOf(files[i]) == Some(LoadedAll(UNLOADED, files).installed);
    assert PolicyOf(files[i]).value.revision == PolicyOf(files[|files| - 1]).value.revision;
  }

  /** From k on all files read were valid with the last one's revision, and not the one before them. */
  ghost predicate Streak(files: seq<File>, k: nat)
  {
    && k < |files|
    && (forall i :: k <= i < |files| ==> SameRevision(PolicyOf(files[i]), PolicyOf(files[|files| - 1])))
    && (k > 0 ==> !SameRevision(PolicyOf(files[k - 1]), PolicyOf(files[|files| - 1])))
  }

  lemma {:induction false} StreakStart(files: seq<File>, n: nat) returns (k: nat)
    requires n < |files| && forall i :: n <= i < |files| ==> SameRevision(PolicyOf(files[i]), PolicyOf(files[|files| - 1]))
    ensures Streak(files, k)
  {
    if n == 0 || !SameRevision(PolicyOf(files[n - 1]), PolicyOf(files[|files| - 1])) {
      k := n;
    } else {
      k := StreakStart(files, n - 1);
    }
  }

  lemma {:induction false} StreakInstalls(files: seq<File>, k: nat)
    requires Streak(files, k)
    ensures PolicyOf(files[k]) == Some(LoadedAll(UNLOADED, files).installed)
  {
    var n := |files| - 1;
    assert SameRevision(PolicyOf(files[k]), PolicyOf(files[n]));
    if n > 0 {
      AnswersByTheLastFile(files[..n]);
      LoadsStayConsistent(files[..n]);
    }
    if k < n {
      assert SameRevision(PolicyOf(files[n - 1]), PolicyOf(files[n]));
      StreakInstalls(files[..n], k);
    }
  }

  /** Without that assumption, over every run of reads that ends with a valid file: the installed policy is that of
      the first file since the revision last changed or a read failed; so it is the last file's if and only if
      these two have the same policy. */
  lemma InstallsIff(files: seq<File>) returns (k: nat)
    requires files != [] && PolicyOf(files[|files| - 1]).Some?
    ensures Streak(files, k) && PolicyOf(files[k]) == Some(LoadedAll(UNLOADED, files).installed)
    ensures Some(LoadedAll(UNLOADED, files).installed) == PolicyOf(files[|files| - 1]) <==> PolicyOf(files[k]) == PolicyOf(files[|files| - 1])
  {
    k := StreakStart(files, |files| - 1);
    StreakInstalls(files, k);
  }

  /** After a failed read every request is refused until a valid read, and that read installs its policy anew
      whatever was installed before. */
  lemma {:induction false} RefusedUntilValid(s: TrustState, bad: seq<File>, good: File)
    requires bad != [] && (forall i :: 0 <= i < |bad| ==> PolicyOf(bad[i]).None?) && PolicyOf(good).Some?
    ensures LoadedAll(s, bad) == s.(failed := true, revision := "")
    ensures var t := Loaded(LoadedAll(s, bad), good);
            !t.failed && t.installed == PolicyOf(good).value && t.applied == s.applied + 1
  {
    if |bad| > 1 {
      RefusedUntilValid(s, bad[..|bad| - 1], good);
    }
  }

  // ---- Answering a request ---------------------------------------------------------------------------

  const MAX_KEYS := 100

  datatype Request = NotPost | Undecodable | WrongKind | Keys(keys: seq<string>)

  datatype Item = Item(key: string, value: Option<string>, error: Option<Code>)

  datatype SystemError = PostOnly | BadRequest | NotARequest | TooManyKeys | PolicyUnavailable

  datatype Reply = Reply(status: nat, idempotent: bool, items: seq<Item>, systemError: Option<SystemError>)

  /** The item for a key and its verdict: a value or an error, never both. */
  ghost predicate ItemFor(it: Item, key: string, r: Result)
  {
    && it.key == key && (it.value.Some? <==> r.OK()) && (it.error.Some? <==> !r.OK())
    && (it.error.Some? ==> it.error.value == r.code) && (it.value.Some? ==> it.value.value == "verified")
  }

  /** Each fault of a request for its own cause, and else one item for each key. */
  ghost predicate Answered(req: Request, failed: bool, verdicts: seq<Result>, reply: Reply)
    requires req.Keys? ==> |verdicts| == |req.keys|
  {
    && (reply.systemError == Some(PostOnly) <==> req.NotPost?)
    && (reply.systemError == Some(BadRequest) <==> req.Undecodable?)
    && (reply.systemError == Some(NotARequest) <==> req.WrongKind?)
    && (reply.systemError == Some(TooManyKeys) <==> req.Keys? && |req.keys| > 100)
    && (reply.systemError == Some(PolicyUnavailable) <==> req.Keys? && |req.keys| <= 100 && failed)
    && (reply.systemError.None? <==> req.Keys? && |req.keys| <= 100 && !failed)
    && (reply.systemError.Some? ==> reply.items == [] && !reply.idempotent)
    && (reply.systemError.None? ==>
          && reply.idempotent && |reply.items| == |req.keys|
          && forall i :: 0 <= i < |req.keys| ==> ItemFor(reply.items[i], req.keys[i], verdicts[i]))
    && reply.status == match req case NotPost => 405 case Undecodable => 400 case WrongKind => 400
                                 case Keys(keys) => if |keys| > 100 then 400 else 200
  }

  /** `verdicts[i]` is what the verifier answers for the i-th key and `order` the order in which the concurrent
      verifications complete; each writes its own item. */
  method Serve(req: Request, failed: bool, verdicts: seq<Result>, order: seq<nat>) returns (reply: Reply)
    requires req.Keys? ==> |verdicts| == |req.keys| && (forall j :: 0 <= j < |order| ==> order[j] < |req.keys|)
    requires req.Keys? ==> forall i :: 0 <= i < |req.keys| ==> i in order
    ensures Answered(req, failed, verdicts, reply)
  {
    match req
    case NotPost => return Reply(405, false, [], Some(PostOnly));
    case Undecodable => return Reply(400, false, [], Some(BadRequest));
    case WrongKind => return Reply(400, false, [], Some(NotARequest));
    case Keys(keys) =>
      if |keys| > MAX_KEYS {
        return Reply(400, false, [], Some(TooManyKeys));
      }
      if failed {
        return Reply(200, false, [], Some(PolicyUnavailable));
      }
      var items := new Item[|keys|](i => Item("", None, None));
      for j := 0 to |order|
        invariant forall i :: 0 <= i < |keys| && i in order[..j] ==> ItemFor(items[i], keys[i], verdicts[i])
      {
        var i := order[j];
        var r := verdicts[i];
        items[i] := if r.OK() then Item(keys[i], Some("verified"), None) else Item(keys[i], None, Some(r.code));
      }
      assert order[..|order|] == order;
      return Reply(200, true, items[..], None);
  }

  /** A file from which a policy can be read: keys, and a repository that is not blank. */
  ghost predicate ValidFile(f: File)
  {
    f.Document? && f.keys.Some? && exists i, k :: 0 <= i < |f.repositories| && 0 <= k < |f.repositories[i]| && !IsSpace(f.repositories[i][k])
  }

  /** Over every run of file reads and for every request: it is answered "policy unavailable" exactly if it is a list
      of at most a hundred keys and the last file read is not valid, and with items exactly if it is such a list and
      that file is valid; an ill-formed request is answered by its own fault whatever the files are. */
  lemma ServedByTheLastFile(files: seq<File>, req: Request, verdicts: seq<Result>, reply: Reply)
    requires files != [] && (req.Keys? ==> |verdicts| == |req.keys|)
    requires Answered(req, LoadedAll(UNLOADED, files).failed, verdicts, reply)
    ensures reply.systemError == Some(PolicyUnavailable) <==> req.Keys? && |req.keys| <= 100 && !ValidFile(files[|files| - 1])
    ensures reply.systemError.None? <==> req.Keys? && |req.keys| <= 100 && ValidFile(files[|files| - 1])
    ensures reply.systemError.Some? ==> reply.items == []
  {
    AnswersByTheLastFile(files);
    PolicyIff(files[|files| - 1]);
  }

  // ---- What a policy is read to --------------------------------------------------------------------

  /** t is s without the white space around it. */
  ghost predicate TrimmedTo(s: string, t: string)
  {
    exists before, after ::
      && s == before + t + after && Trimmed(t)
      && (forall k :: 0 <= k < |before| ==> IsSpace(before[k])) && (forall k :: 0 <= k < |after| ==> IsSpace(after[k]))
  }

  lemma {:induction false} TrimLeftParts(s: string) returns (before: string)
    ensures s == before + TrimLeft(s, IsSpace) && forall k :: 0 <= k < |before| ==> IsSpace(before[k])
  {
    if s != [] && IsSpace(s[0]) {
      var rest := TrimLeftParts(s[1..]);
      before := [s[0]] + rest;
      assert s == [s[0]] + s[1..];
    } else {
      before := [];
    }
  }

  lemma {:induction false} TrimRightParts(s: string) returns (after: string)
    ensures s == TrimRight(s, IsSpace) + after && forall k :: 0 <= k < |after| ==> IsSpace(after[k])
  {
    if s != [] && IsSpace(s[|s| - 1]) {
      var rest := TrimRightParts(s[..|s| - 1]);
      after := rest + [s[|s| - 1]];
      assert s == s[..|s| - 1] + [s[|s| - 1]];
    } else {
      after := [];
    }
  }

  lemma TrimSpaceMeans(s: string)
    ensures TrimmedTo(s, TrimSpace(s))
    ensures TrimSpace(s) != "" <==> exists k :: 0 <= k < |s| && !IsSpace(s[k])
  {
    var before := TrimLeftParts(s);
    var after := TrimRightParts(TrimLeft(s, IsSpace));
    var t := TrimSpace(s);
    assert s == before + t + after;
    if t != "" {
      assert s[|before|] == t[0];
      assert Trimmed(t);
    }
  }

  /** ps are the trimmed ones, not empty, of the first n texts, in order and from the places `at`. */
  ghost predicate Kept(texts: seq<string>, n: nat, ps: seq<string>, at: seq<nat>)
    requires n <= |texts|
  {
    && |at| == |ps| && (forall i, j :: 0 <= i < j < |at| ==> at[i] < at[j])
    && (forall j :: 0 <= j < |at| ==> at[j] < n && ps[j] == TrimSpace(texts[at[j]]) && ps[j] != "")
    && (forall i: nat :: i < n && TrimSpace(texts[i]) != "" ==> i in at)
  }

  lemma KeptMore(texts: seq<string>, n: nat, ps: seq<string>, at: seq<nat>)
    requires n < |texts| && Kept(texts, n, ps, at)
    ensures var t := TrimSpace(texts[n]);
            if t != "" then Kept(texts, n + 1, ps + [t], at + [n]) else Kept(texts, n + 1, ps, at)
  {
  }

  lemma {:induction false} PrefixesFrom(repositories: seq<string>, n: nat) returns (at: seq<nat>)
    requires n <= |repositories|
    ensures Kept(repositories, n, Prefixes(repositories[..n]), at)
  {
    if n == 0 {
      at := [];
    } else {
      at := PrefixesFrom(repositories, n - 1);
      KeptMore(repositories, n - 1, Prefixes(repositories[..n - 1]), at);
      assert repositories[..n][..n - 1] == repositories[..n - 1];
      if TrimSpace(repositories[n - 1]) != "" {
        at := at + [n - 1];
      }
    }
  }

  /** The prefixes are the repositories that are not blank, all of them, in order and trimmed: `at[j]` is where the
      j-th comes from. */
  lemma PrefixesMean(repositories: seq<string>) returns (at: seq<nat>)
    ensures |at| == |Prefixes(repositories)| && forall i, j :: 0 <= i < j < |at| ==> at[i] < at[j]
    ensures forall j :: 0 <= j < |at| ==> at[j] < |repositories| && TrimmedTo(repositories[at[j]], Prefixes(repositories)[j])
    ensures forall i: nat :: i < |repositories| ==> (i in at <==> exists k :: 0 <= k < |repositories[i]| && !IsSpace(repositories[i][k]))
  {
    at := PrefixesFrom(repositories, |repositories|);
    assert repositories[..|repositories|] == repositories;
    forall i: nat | i < |repositories|
      ensures TrimmedTo(repositories[i], TrimSpace(repositories[i]))
      ensures TrimSpace(repositories[i]) != "" <==> exists k :: 0 <= k < |repositories[i]| && !IsSpace(repositories[i][k])
    {
      TrimSpaceMeans(repositories[i]);
    }
  }

  /** A file gives a policy exactly if it is valid: with its keys, the prefixes and the start of its hash. */
  lemma PolicyIff(f: File)
    ensures PolicyOf(f).Some? <==> ValidFile(f)
    ensures PolicyOf(f).Some? ==> PolicyOf(f) == Some(Policy(Prefixes(f.repositories), f.keys.value, f.hash[..16]))
  {
    if f.Document? {
      var at := PrefixesMean(f.repositories);
      assert at != [] ==> at[0] in at;
    }
  }

  // ---- The latency histogram -------------------------------------------------------------------------

  ghost predicate Ascending(buckets: seq<real>)
  {
    forall i, j :: 0 <= i < j < |buckets| ==> buckets[i] < buckets[j]
  }

  /** d falls into bucket i and into none before it. */
  predicate Falls(d: real, buckets: seq<real>, i: nat)
    requires i < |buckets|
  {
    d <= buckets[i] && (i > 0 ==> d > buckets[i - 1])
  }

  function InBucket(seen: seq<real>, buckets: seq<real>, i: nat): nat
    requires i < |buckets|
  {
    if seen == [] then 0 else InBucket(seen[..|seen| - 1], buckets, i) + (if Falls(seen[|seen| - 1], buckets, i) then 1 else 0)
  }

  function AtMost(seen: seq<real>, le: real): nat
  {
    if seen == [] then 0 else AtMost(seen[..|seen| - 1], le) + (if seen[|seen| - 1] <= le then 1 else 0)
  }

  function Total(seen: seq<real>): real
  {
    if seen == [] then 0.0 else Total(seen[..|seen| - 1]) + seen[|seen| - 1]
  }

  lemma {:induction false} BucketsAddUp(seen: seq<real>, buckets: seq<real>, i: nat)
    requires i < |buckets| && Ascending(buckets)
    ensures AtMost(seen, buckets[i]) == (if i > 0 then AtMost(seen, buckets[i - 1]) else 0) + InBucket(seen, buckets, i)
  {
    if seen != [] {
      BucketsAddUp(seen[..|seen| - 1], buckets, i);
    }
  }

  class Metrics {
    const buckets: seq<real>
    const counts: array<nat>
    var sum: real
    var count: nat
    /** The observed durations, in order. */
    ghost var seen: seq<real>

    ghost predicate Valid()
      reads this, counts
    {
      && counts.Length == |buckets| && Ascending(buckets)
      && count == |seen| && sum == Total(seen)
      && forall i :: 0 <= i < |buckets| ==> counts[i] == InBucket(seen, buckets, i)
    }

    constructor (buckets: seq<real>)
      requires Ascending(buckets)
      ensures Valid() && fresh(counts) && this.buckets == buckets && seen == []
    {
      this.buckets := buckets;
      counts := new nat[|buckets|](i => 0);
      sum, count, seen := 0.0, 0, [];
    }

    method Observe(d: real)
      requires Valid()
      modifies this, counts
      ensures Valid() && seen == old(seen) + [d]
    {
      var i := 0;
      while i < |buckets| && d > buckets[i]
        invariant i <= |buckets| && forall k :: 0 <= k < i ==> d > buckets[k]
      {
        i := i + 1;
      }
      ghost var before := seen;
      if i < |buckets| {
        counts[i] := counts[i] + 1;
      }
      sum, count, seen := sum + d, count + 1, seen + [d];
      assert seen[..|before|] == before;
      assert forall k :: 0 <= k < |buckets| ==> (Falls(d, buckets, k) <==> k == i);
    }

    /** The exposed series: for each bucket the observations up to its bound, and all of them. */
    method Render() returns (cumulative: seq<nat>, all: nat, total: real)
      requires Valid()
      ensures |cumulative| == |buckets| && forall i :: 0 <= i < |buckets| ==> cumulative[i] == AtMost(seen, buckets[i])
      ensures all == |seen| && total == Total(seen)
    {
      cumulative := [];
      var sofar := 0;
      for i := 0 to |buckets|
        invariant |cumulative| == i && forall k :: 0 <= k < i ==> cumulative[k] == AtMost(seen, buckets[k])
        invariant sofar == if i > 0 then AtMost(seen, buckets[i - 1]) else 0
      {
        BucketsAddUp(seen, buckets, i);
        sofar := sofar + counts[i];
        cumulative := cumulative + [sofar];
      }
      all, total := count, sum;
    }
  }
}
