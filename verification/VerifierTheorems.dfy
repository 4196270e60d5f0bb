/**
 What every run of the verifier guarantees: coherence of the cache with the plain verification, the
 bounds, single flight, and that finished work is never lost.
 */
module VerifierTheorems {
  import opened Text
  import opened Refs
  import opened Profile
  import opened VerifierCache
  import opened VerifierRuns

  // ---- Finished work is never lost ---------------------------------------------------------------

  function KeyOf(c: Setup, s: State, f: Address): string
    requires f in s.flights
  {
    FlightKey(c, s.flights[f])
  }

  predicate PastStore(f: Flight)
  {
    Rank(f.phase) >= Rank(Stored)
  }

  /** The flight ended without a verdict. */
  predicate NoVerdict(f: Flight)
  {
    Settled(f) && f.result.code == ProviderDown
  }

  /** Once stored, the verdict is in the cache under the flight's key. */
  ghost predicate Kept(c: Setup, s: State, f: Address)
    requires f in s.flights
  {
    var x := s.flights[f];
    && x.policy == s.memory.policy
    && (PastStore(x) && x.result.code != ProviderDown ==>
          FlightKey(c, x) in s.memory.cache && s.memory.cache[FlightKey(c, x)].result == x.result)
  }

  /** No other flight for the key is registered. */
  ghost predicate Sole(c: Setup, s: State, f: Address)
    requires f in s.flights
  {
    forall g :: g in s.flights && g != f && FlightKey(c, s.flights[g]) == KeyOf(c, s, f) ==> !Registered(s.flights[g])
  }

  /** The stored verdict has not expired. */
  predicate Unexpired(c: Setup, s: State, f: Address)
    requires f in s.flights
  {
    PastStore(s.flights[f]) && KeyOf(c, s, f) in s.memory.cache ==> s.now <= s.memory.cache[KeyOf(c, s, f)].expires
  }

  /** There is room for one more entry, if need be once the expired ones have gone. */
  predicate HasRoom(s: State)
  {
    |s.memory.cache| < 4096 || exists k :: k in s.memory.cache && s.memory.cache[k].expires < s.now
  }

  /** A store leaves every other entry that has not expired, where there is room. */
  lemma StoredKeeps(m: Memory, key: string, policy: Address, r: Result, now: int, expires: int, other: string)
    requires |m.cache| <= 4096 && (|m.cache| < 4096 || exists k :: k in m.cache && m.cache[k].expires < now)
    requires other in m.cache && now <= m.cache[other].expires && other != key
    ensures var n := StoredIn(m, key, policy, r, now, expires);
            n.policy == m.policy && other in n.cache && n.cache[other] == m.cache[other]
  {
    var swept := Swept(m.cache, now);
    assert other in swept;
    if k :| k in m.cache && m.cache[k].expires < now {
      assert k !in swept && swept.Keys <= m.cache.Keys - {k};
      SubsetSize(swept.Keys, m.cache.Keys - {k});
      assert |swept| == |swept.Keys| && |m.cache| == |m.cache.Keys|;
    }
  }

  /** The step neither replaces the policy nor evicts: another key is stored only where there is room. */
  ghost predicate Undisturbed(c: Setup, s: State, a: Action, k: string)
  {
    && !a.SetPolicy?
    && (a.StoreStep? && a.flight in s.flights && FlightKey(c, s.flights[a.flight]) != k ==> HasRoom(s))
  }

  ghost predicate Sheltered(c: Setup, s: State, acts: seq<Action>, f: Address)
    requires f in s.flights
    decreases |acts|
  {
    acts == [] ||
    (Enabled(c, s, acts[0]) && Undisturbed(c, s, acts[0], KeyOf(c, s, f)) && Unexpired(c, s, f) &&
     f in Next(c, s, acts[0]).flights && Sheltered(c, Next(c, s, acts[0]), acts[1..], f))
  }

  /** Every flight for key k in t was there in s already: no second verification was started. */
  ghost predicate NoneStarted(c: Setup, s: State, t: State, k: string)
  {
    forall g :: g in t.flights && FlightKey(c, t.flights[g]) == k ==> g in s.flights
  }

  lemma NoStartWhileKept(c: Setup, s: State, q: nat, id: Address, f: Address)
    requires SingleFlight(c, s) && f in s.flights && Enabled(c, s, StartStep(q, id))
    requires Kept(c, s, f) && Unexpired(c, s, f) && !NoVerdict(s.flights[f])
    requires RequestKey(c, s.requests[q]) == KeyOf(c, s, f)
    ensures AfterStart(c, s, q, id).flights == s.flights
    ensures AfterStart(c, s, q, id).memory == s.memory
  {
    if Registered(s.flights[f]) {
      assert KeyOf(c, s, f) in s.memory.inflight;
    }
  }

  lemma StepStartsNone(c: Setup, s: State, a: Action, f: Address)
    requires SingleFlight(c, s) && f in s.flights && Enabled(c, s, a)
    requires Kept(c, s, f) && Unexpired(c, s, f) && !NoVerdict(s.flights[f])
    ensures NoneStarted(c, s, Next(c, s, a), KeyOf(c, s, f))
  {
    if a.StartStep? {
      if RequestKey(c, s.requests[a.req]) == KeyOf(c, s, f) {
        NoStartWhileKept(c, s, a.req, a.id, f);
      }
    } else {
      assert Next(c, s, a).flights.Keys == s.flights.Keys;
    }
  }

  lemma StepKeepsSole(c: Setup, s: State, a: Action, f: Address)
    requires f in s.flights && Enabled(c, s, a) && Sole(c, s, f)
    requires NoneStarted(c, s, Next(c, s, a), KeyOf(c, s, f))
    ensures f in Next(c, s, a).flights && KeyOf(c, Next(c, s, a), f) == KeyOf(c, s, f)
    ensures Sole(c, Next(c, s, a), f)
  {
    var t := Next(c, s, a);
    NextGrows(c, s, a);
    assert Ages(s.flights[f], t.flights[f]);
    forall g | g in t.flights && g != f && FlightKey(c, t.flights[g]) == KeyOf(c, t, f)
      ensures !Registered(t.flights[g])
    {
      assert g in s.flights && Ages(s.flights[g], t.flights[g]);
    }
  }

  lemma StepKeepsKept(c: Setup, s: State, a: Action, f: Address)
    requires f in s.flights && Enabled(c, s, a) && Kept(c, s, f) && Sole(c, s, f)
    requires Undisturbed(c, s, a, KeyOf(c, s, f)) && Unexpired(c, s, f) && |s.memory.cache| <= 4096
    ensures f in Next(c, s, a).flights && Kept(c, Next(c, s, a), f)
  {
    if a.StoreStep? {
      if a.flight == f {
        StoreKeepsOwn(c, s, f, a.insertedAt);
      } else {
        StoreKeepsOther(c, s, a.flight, a.insertedAt, f);
      }
    } else {
      NextGrows(c, s, a);
      OthersLeaveCache(c, s, a);
      OnlyStoreStores(c, s, a, f);
      SameCacheKept(c, s, Next(c, s, a), f);
    }
  }

  lemma SameCacheKept(c: Setup, s: State, t: State, f: Address)
    requires f in s.flights && Kept(c, s, f) && Grows(s, t)
    requires t.memory.cache == s.memory.cache && t.memory.policy == s.memory.policy
    requires f in t.flights && (PastStore(t.flights[f]) ==> PastStore(s.flights[f]))
    ensures Kept(c, t, f)
  {
    assert Ages(s.flights[f], t.flights[f]);
  }

  lemma OthersLeaveCache(c: Setup, s: State, a: Action)
    requires Enabled(c, s, a) && !a.StoreStep? && !a.SetPolicy?
    ensures Next(c, s, a).memory.cache == s.memory.cache && Next(c, s, a).memory.policy == s.memory.policy
  {
    if a.StartStep? {
      StartLeavesCache(c, s, a.req, a.id);
    }
  }

  lemma CacheStaysBounded(c: Setup, s: State, a: Action)
    requires Enabled(c, s, a) && |s.memory.cache| <= 4096
    ensures |Next(c, s, a).memory.cache| <= 4096
  {
    if a.StoreStep? {
      var x := s.flights[a.flight];
      StoreBounded(s.memory, FlightKey(c, x), x.policy, x.result, s.now, Expiry(c, x.result, a.insertedAt));
    } else if !a.SetPolicy? {
      OthersLeaveCache(c, s, a);
    }
  }

  lemma StartLeavesCache(c: Setup, s: State, q: nat, id: Address)
    requires Asking(c, s, q)
    ensures AfterStart(c, s, q, id).memory.cache == s.memory.cache && AfterStart(c, s, q, id).memory.policy == s.memory.policy
  {
  }

  lemma OnlyStoreStores(c: Setup, s: State, a: Action, f: Address)
    requires f in s.flights && Enabled(c, s, a) && !a.StoreStep?
    ensures f in Next(c, s, a).flights && (PastStore(Next(c, s, a).flights[f]) ==> PastStore(s.flights[f]))
  {
  }

  lemma StoreKeepsOwn(c: Setup, s: State, f: Address, at: int)
    requires Enabled(c, s, StoreStep(f, at)) && Kept(c, s, f)
    ensures Kept(c, Next(c, s, StoreStep(f, at)), f)
  {
  }

  lemma StoreKeepsOther(c: Setup, s: State, g: Address, at: int, f: Address)
    requires f in s.flights && f != g && Enabled(c, s, StoreStep(g, at)) && Kept(c, s, f) && Sole(c, s, f)
    requires Unexpired(c, s, f) && (HasRoom(s) || FlightKey(c, s.flights[g]) == KeyOf(c, s, f)) && |s.memory.cache| <= 4096
    ensures Kept(c, Next(c, s, StoreStep(g, at)), f)
  {
    var x := s.flights[g];
    assert Registered(x) && FlightKey(c, x) != KeyOf(c, s, f);
    if KeyOf(c, s, f) in s.memory.cache && s.now <= s.memory.cache[KeyOf(c, s, f)].expires {
      StoredKeeps(s.memory, FlightKey(c, x), x.policy, x.result, s.now, Expiry(c, x.result, at), KeyOf(c, s, f));
    }
  }

  lemma {:induction false} RunGrows(c: Setup, s: State, acts: seq<Action>, t: State)
    requires Run(c, s, acts) == Some(t)
    ensures Grows(s, t)
    decreases |acts|
  {
    if acts == [] {
    } else {
      NextGrows(c, s, acts[0]);
      RunGrows(c, Next(c, s, acts[0]), acts[1..], t);
      GrowsTwice(s, Next(c, s, acts[0]), t);
    }
  }

  lemma GrowsTwice(s: State, m: State, t: State)
    requires Grows(s, m) && Grows(m, t)
    ensures Grows(s, t)
  {
    forall f | f in s.flights
      ensures f in t.flights && Ages(s.flights[f], t.flights[f])
    {
      assert Ages(s.flights[f], m.flights[f]);
      assert Ages(m.flights[f], t.flights[f]);
    }
  }

  /** What a sheltered run carries from state to state. */
  ghost predicate Carried(c: Setup, s: State, f: Address)
  {
    SingleFlight(c, s) && |s.memory.cache| <= 4096 && f in s.flights && Kept(c, s, f) && Sole(c, s, f)
  }

  lemma ShelteredStep(c: Setup, s: State, a: Action, f: Address)
    requires Carried(c, s, f) && Enabled(c, s, a) && Undisturbed(c, s, a, KeyOf(c, s, f)) && Unexpired(c, s, f)
    requires !NoVerdict(s.flights[f])
    ensures Carried(c, Next(c, s, a), f)
    ensures NoneStarted(c, s, Next(c, s, a), KeyOf(c, s, f)) && KeyOf(c, Next(c, s, a), f) == KeyOf(c, s, f)
  {
    StepStartsNone(c, s, a, f);
    StepKeepsSole(c, s, a, f);
    StepKeepsKept(c, s, a, f);
    KeepsSingleFlight(c, s, a);
    CacheStaysBounded(c, s, a);
  }

  lemma NoneStartedTwice(c: Setup, s: State, m: State, t: State, k: string)
    requires NoneStarted(c, s, m, k) && NoneStarted(c, m, t, k) && Grows(m, t)
    ensures NoneStarted(c, s, t, k)
  {
    forall g | g in t.flights && FlightKey(c, t.flights[g]) == k
      ensures g in s.flights
    {
      assert g in m.flights && Ages(m.flights[g], t.flights[g]);
    }
  }

  lemma {:induction false} ShelteredRun(c: Setup, s: State, acts: seq<Action>, f: Address, t: State)
    requires Carried(c, s, f) && Run(c, s, acts) == Some(t) && Sheltered(c, s, acts, f)
    requires f in t.flights && !NoVerdict(t.flights[f])
    ensures Carried(c, t, f) && NoneStarted(c, s, t, KeyOf(c, s, f)) && KeyOf(c, t, f) == KeyOf(c, s, f)
    decreases |acts|
  {
    if acts == [] {
    } else {
      var m := Next(c, s, acts[0]);
      RunGrows(c, s, acts, t);
      assert Ages(s.flights[f], t.flights[f]);
      ShelteredStep(c, s, acts[0], f);
      RunGrows(c, m, acts[1..], t);
      ShelteredRun(c, m, acts[1..], f, t);
      NoneStartedTwice(c, s, m, t, KeyOf(c, s, f));
    }
  }

  /** A verification that is under way keeps its worth whatever happens to the requests that wait for it:
      over any steps that neither replace the policy nor evict, and while its stored entry is unexpired, no
      second verification for its key starts, and from its store on its verdict answers every lookup of
      the key.  (A verification without a verdict, answered "down", is the one thing not kept.) */
  lemma FinishedWorkIsNeverLost(c: Setup, s: State, acts: seq<Action>, f: Address, t: State)
    requires Inv(c, s) && f in s.flights && !PastStore(s.flights[f]) && s.flights[f].policy == s.memory.policy
    requires Run(c, s, acts) == Some(t) && Sheltered(c, s, acts, f)
    requires f in t.flights && !NoVerdict(t.flights[f])
    ensures NoneStarted(c, s, t, KeyOf(c, s, f))
    ensures PastStore(t.flights[f]) && Unexpired(c, t, f) ==>
              forall q :: Enabled(c, t, LookupStep(q)) && RequestKey(c, t.requests[q]) == KeyOf(c, s, f) ==>
                Next(c, t, LookupStep(q)).requests[q].state == Answered(t.flights[f].result)
  {
    UnderWayIsCarried(c, s, f);
    ShelteredRun(c, s, acts, f, t);
    if PastStore(t.flights[f]) && Unexpired(c, t, f) {
      forall q | Enabled(c, t, LookupStep(q)) && RequestKey(c, t.requests[q]) == KeyOf(c, s, f)
        ensures Next(c, t, LookupStep(q)).requests[q].state == Answered(t.flights[f].result)
      {
        KeptAnswers(c, t, f, q);
      }
    }
  }

  lemma KeptAnswers(c: Setup, s: State, f: Address, q: nat)
    requires f in s.flights && Kept(c, s, f) && PastStore(s.flights[f]) && Unexpired(c, s, f) && !NoVerdict(s.flights[f])
    requires Enabled(c, s, LookupStep(q)) && RequestKey(c, s.requests[q]) == KeyOf(c, s, f)
    ensures Next(c, s, LookupStep(q)).requests[q].state == Answered(s.flights[f].result)
  {
  }

  lemma UnderWayIsCarried(c: Setup, s: State, f: Address)
    requires SingleFlight(c, s) && |s.memory.cache| <= 4096
    requires f in s.flights && !PastStore(s.flights[f]) && s.flights[f].policy == s.memory.policy
    ensures Carried(c, s, f)
  {
    assert Registered(s.flights[f]);
  }

  /** A flight is never stuck: until it is closed some step of its own is possible, whatever its
      requesters do, and brings it nearer to its end. */
  lemma FlightCanProceed(c: Setup, s: State, f: Address) returns (a: Action)
    requires f in s.flights && s.flights[f].phase != Closed
    ensures (a.Exhaust? || a.Finish? || a.Release? || a.StoreStep? || a.RemoveStep? || a.Close?) && a.flight == f
    ensures Enabled(c, s, a) && Next(c, s, a).requests == s.requests
    ensures Rank(Next(c, s, a).flights[f].phase) > Rank(s.flights[f].phase)
  {
    match s.flights[f].phase
    case Queued => a := Exhaust(f);
    case Verifying => a := Finish(f, AnyWorld());
    case Verified => a := Release(f);
    case Released => a := StoreStep(f, s.now);
    case Stored => a := RemoveStep(f);
    case Removed => a := Close(f);
  }

  function AnyWorld(): World
  {
    World((st, i) => true, (st, r, tag) => Fetch.NotFound, (st, i, r, d) => Fetch.NotFound, true)
  }

  // ---- The real verifier -------------------------------------------------------------------------

  /** The program's own parser, key, allow-list and verification. */
  ghost function RealSetup(codec: Codec, policies: Address -> Policy, concurrency: nat, positiveTtl: int, negativeTtl: int): Setup
  {
    Setup(policies,
          image => ParseRef(image),
          r => WellFormed(r),
          (r, revision) => Key(r, revision),
          (p: Policy, r) => Allows(p.repositories, r),
          (w, r, p) => Verify(codec, w, r, p),
          concurrency, positiveTtl, negativeTtl)
  }

  lemma RealParsesWell(codec: Codec, policies: Address -> Policy, concurrency: nat, positiveTtl: int, negativeTtl: int)
    ensures ParsesWell(RealSetup(codec, policies, concurrency, positiveTtl, negativeTtl))
  {
    forall image | ParseRef(image).Some?
      ensures WellFormed(ParseRef(image).value)
    {
      ParseThenPrint(image);
    }
  }

  lemma RealKeysApart(codec: Codec, policies: Address -> Policy, concurrency: nat, positiveTtl: int, negativeTtl: int)
    ensures KeysApart(RealSetup(codec, policies, concurrency, positiveTtl, negativeTtl))
  {
    forall r, v, r', v' | WellFormed(r) && WellFormed(r') && Key(r, v) == Key(r', v')
      ensures r == r' && v == v'
    {
      KeyInjective(r, v, r', v');
    }
  }

  /** A state of some run of the real verifier. */
  ghost predicate Reaches(c: Setup, policy: Address, now: int, acts: seq<Action>, s: State)
  {
    Run(c, Initial(policy, now), acts) == Some(s)
  }

  lemma ReachableInv(c: Setup, policy: Address, now: int, acts: seq<Action>, s: State)
    requires Lawful(c) && Reaches(c, policy, now, acts, s)
    ensures Inv(c, s)
  {
    InitialInv(c, policy, now);
    RunKeepsInv(c, Initial(policy, now), acts);
  }

  // ---- Every verification is one of the run -------------------------------------------------------

  /** The world a flight met is the one it met at its Finish step among the given actions. */
  ghost predicate MetIn(s: State, acts: seq<Action>, f: Address)
    requires f in s.flights
  {
    s.flights[f].world.Some? ==> Settled(s.flights[f]) && Finish(f, s.flights[f].world.value) in acts
  }

  ghost predicate AllMetIn(s: State, acts: seq<Action>)
  {
    forall f :: f in s.flights ==> MetIn(s, acts, f)
  }

  lemma StepMeets(c: Setup, s: State, acts: seq<Action>, a: Action)
    requires AllMetIn(s, acts) && Enabled(c, s, a)
    ensures AllMetIn(Next(c, s, a), acts + [a])
  {
    var t := Next(c, s, a);
    forall f | f in t.flights
      ensures MetIn(t, acts + [a], f)
    {
      if f in s.flights {
        assert MetIn(s, acts, f);
        MeetsOne(c, s, acts, a, f);
      }
    }
  }

  lemma MeetsOne(c: Setup, s: State, acts: seq<Action>, a: Action, f: Address)
    requires Enabled(c, s, a) && f in s.flights && MetIn(s, acts, f)
    ensures f in Next(c, s, a).flights && MetIn(Next(c, s, a), acts + [a], f)
  {
    NextGrows(c, s, a);
    assert Ages(s.flights[f], Next(c, s, a).flights[f]);
    if !Settled(s.flights[f]) {
      OnlyFinishMeets(c, s, a, f);
      assert (acts + [a])[|acts|] == a;
    }
  }

  lemma OnlyFinishMeets(c: Setup, s: State, a: Action, f: Address)
    requires Enabled(c, s, a) && f in s.flights && s.flights[f].world.None?
    ensures f in Next(c, s, a).flights
    ensures var x := Next(c, s, a).flights[f]; x.world.Some? ==> a == Finish(f, x.world.value) && x.phase == Verified
  {
  }

  lemma ReachableMeets(c: Setup, policy: Address, now: int, acts: seq<Action>, s: State)
    requires Reaches(c, policy, now, acts, s)
    ensures AllMetIn(s, acts)
  {
    forall m, x, a | Enabled(c, x, a) && AllMetIn(x, m)
      ensures AllMetIn(Next(c, x, a), m + [a])
    {
      StepMeets(c, x, m, a);
    }
    Along(c, [], Initial(policy, now), acts, s, (m, x) => AllMetIn(x, m));
    assert [] + acts == acts;
  }

  // ---- Coherence ---------------------------------------------------------------------------------

  /** In the run `acts` that led to s, flight f verified image ref under the policy at p: it read world w, and
      the plain verification of what it read gives r. */
  ghost predicate VerifiedBy(codec: Codec, policies: Address -> Policy, acts: seq<Action>, s: State, f: Address,
                             ref: Ref, p: Address, w: World, r: Result)
  {
    && f in s.flights && s.flights[f].ref == ref && s.flights[f].policy == p && s.flights[f].world == Some(w)
    && Finish(f, w) in acts && s.flights[f].result == r == Verify(codec, w, ref, policies(p))
  }

  /** Some flight of the run verified this image under a policy of this revision and got r. */
  ghost predicate Verdicts(codec: Codec, policies: Address -> Policy, acts: seq<Action>, s: State, ref: Ref, revision: string, r: Result)
  {
    exists f, p, w :: VerifiedBy(codec, policies, acts, s, f, ref, p, w, r) && policies(p).revision == revision
  }

  /** Coherence: over every interleaving, an answer is ADM-NOT-DIGEST exactly for an image that does not
      parse, else ADM-REGISTRY-DENIED exactly for a repository the loaded policy does not allow, else
      "down", else what a flight of this very run got from the plain verification of exactly this image, in
      what it read from the registry, under a policy of the loaded policy's revision. */
  lemma Coherence(codec: Codec, policies: Address -> Policy, concurrency: nat, positiveTtl: int, negativeTtl: int,
                  policy: Address, now: int, acts: seq<Action>, s: State, q: nat)
    requires Reaches(RealSetup(codec, policies, concurrency, positiveTtl, negativeTtl), policy, now, acts, s)
    requires q in s.requests && s.requests[q].state.Answered?
    ensures var image, r := s.requests[q].image, s.requests[q].state.result;
            var loaded := policies(s.requests[q].policy);
            match ParseRef(image)
            case None => r == Refusal(NotDigest)
            case Some(ref) =>
              if !Allows(loaded.repositories, ref) then r == Refusal(RegistryDenied)
              else r.code == ProviderDown || Verdicts(codec, policies, acts, s, ref, loaded.revision, r)
  {
    var c := RealSetup(codec, policies, concurrency, positiveTtl, negativeTtl);
    RealParsesWell(codec, policies, concurrency, positiveTtl, negativeTtl);
    RealKeysApart(codec, policies, concurrency, positiveTtl, negativeTtl);
    ReachableInv(c, policy, now, acts, s);
    ReachableMeets(c, policy, now, acts, s);
    var x := s.requests[q];
    assert RequestHonest(c, s, x);
    AnswerIsVerdict(codec, policies, c, acts, s, x, x.state.result);
  }

  lemma AnswerIsVerdict(codec: Codec, policies: Address -> Policy, c: Setup, acts: seq<Action>, s: State, q: Request, r: Result)
    requires c == RealSetup(codec, policies, c.concurrency, c.positiveTtl, c.negativeTtl)
    requires FlightsHonest(c, s) && AllMetIn(s, acts) && Justified(c, s, q, r)
    ensures match ParseRef(q.image)
            case None => r == Refusal(NotDigest)
            case Some(ref) =>
              if !Allows(policies(q.policy).repositories, ref) then r == Refusal(RegistryDenied)
              else r.code == ProviderDown || Verdicts(codec, policies, acts, s, ref, policies(q.policy).revision, r)
  {
    var parsed := ParseRef(q.image);
    assert c.parse(q.image) == parsed;
    if parsed.Some? {
      var ref := parsed.value;
      if c.allows(c.policies(q.policy), ref) && r.code != ProviderDown {
        var f :| Witnessed(c, s, f, ref, Revision(c, q.policy), r);
        FlightIsVerdict(codec, policies, c, acts, s, f);
        assert VerifiedBy(codec, policies, acts, s, f, ref, s.flights[f].policy, s.flights[f].world.value, r);
        assert policies(s.flights[f].policy).revision == policies(q.policy).revision;
      }
    }
  }

  lemma FlightIsVerdict(codec: Codec, policies: Address -> Policy, c: Setup, acts: seq<Action>, s: State, f: Address)
    requires c == RealSetup(codec, policies, c.concurrency, c.positiveTtl, c.negativeTtl)
    requires f in s.flights && Honest(c, s.flights[f]) && MetIn(s, acts, f) && s.flights[f].world.Some?
    ensures var x := s.flights[f]; VerifiedBy(codec, policies, acts, s, f, x.ref, x.policy, x.world.value, x.result)
  {
  }

  /** With equal revisions only for equal policies, an image a request is told to admit was verified in this run,
      under the very policy the request loaded: in what its flight read from the registry it has a trusted
      signature, the admitted platform and both attestations, and the policy allows its repository. */
  lemma AdmittedUnderTheLoadedPolicy(codec: Codec, policies: Address -> Policy, concurrency: nat, positiveTtl: int, negativeTtl: int,
                                     policy: Address, now: int, acts: seq<Action>, s: State, q: nat) returns (f: Address, w: World)
    requires Reaches(RealSetup(codec, policies, concurrency, positiveTtl, negativeTtl), policy, now, acts, s)
    requires forall p: Address, p': Address :: policies(p).revision == policies(p').revision ==> policies(p) == policies(p')
    requires q in s.requests && s.requests[q].state.Answered? && s.requests[q].state.result.OK()
    ensures ParseRef(s.requests[q].image).Some? && f in s.flights
    ensures var ref, loaded, r := ParseRef(s.requests[q].image).value, policies(s.requests[q].policy), s.requests[q].state.result;
            && Allows(loaded.repositories, ref) && policies(s.flights[f].policy) == loaded
            && VerifiedBy(codec, policies, acts, s, f, ref, s.flights[f].policy, w, r)
            && Admissible(Job(codec, w, ref, loaded.keys), r.predicates)
  {
    Coherence(codec, policies, concurrency, positiveTtl, negativeTtl, policy, now, acts, s, q);
    var ref, loaded, r := ParseRef(s.requests[q].image).value, policies(s.requests[q].policy), s.requests[q].state.result;
    assert Verdicts(codec, policies, acts, s, ref, loaded.revision, r);
    var p: Address;
    f, p, w :| VerifiedBy(codec, policies, acts, s, f, ref, p, w, r) && policies(p).revision == loaded.revision;
    AdmittedMeans(codec, w, ref, policies(p));
  }

  /** A flight of the run computed this cached verdict: it verified an image of key k under the policy at p. */
  ghost predicate CachedVerdict(codec: Codec, policies: Address -> Policy, acts: seq<Action>, s: State, k: string, p: Address, r: Result)
  {
    exists f, ref, w :: VerifiedBy(codec, policies, acts, s, f, ref, p, w, r) && k == Key(ref, policies(p).revision)
  }

  /** Every reachable state: each cached verdict was computed by a flight of the run, for its key, under the
      installed policy address, and is not "down"; at most 4096 entries, 256 flights and `concurrency`
      verifications; and one registered flight for each image and revision. */
  lemma ReachableStatesAreSound(codec: Codec, policies: Address -> Policy, concurrency: nat, positiveTtl: int, negativeTtl: int,
                                policy: Address, now: int, acts: seq<Action>, s: State)
    requires Reaches(RealSetup(codec, policies, concurrency, positiveTtl, negativeTtl), policy, now, acts, s)
    ensures |s.memory.cache| <= MAX_CACHE && |s.memory.inflight| <= MAX_INFLIGHT && |Holders(s)| <= concurrency
    ensures forall k :: k in s.memory.cache ==>
              s.memory.cache[k].result.code != ProviderDown &&
              CachedVerdict(codec, policies, acts, s, k, s.memory.policy, s.memory.cache[k].result)
    ensures forall f, g :: f in s.flights && g in s.flights && Registered(s.flights[f]) && Registered(s.flights[g]) &&
              s.flights[f].ref == s.flights[g].ref && policies(s.flights[f].policy).revision == policies(s.flights[g].policy).revision
              ==> f == g
  {
    var c := RealSetup(codec, policies, concurrency, positiveTtl, negativeTtl);
    RealParsesWell(codec, policies, concurrency, positiveTtl, negativeTtl);
    RealKeysApart(codec, policies, concurrency, positiveTtl, negativeTtl);
    ReachableInv(c, policy, now, acts, s);
    ReachableMeets(c, policy, now, acts, s);
    forall k | k in s.memory.cache
      ensures CachedVerdict(codec, policies, acts, s, k, s.memory.policy, s.memory.cache[k].result)
    {
      EntryIsVerdict(codec, policies, c, acts, s, k);
    }
    SameKeySameFlight(c, s);
  }

  lemma EntryIsVerdict(codec: Codec, policies: Address -> Policy, c: Setup, acts: seq<Action>, s: State, k: string)
    requires c == RealSetup(codec, policies, c.concurrency, c.positiveTtl, c.negativeTtl)
    requires FlightsHonest(c, s) && AllMetIn(s, acts) && CacheHonest(c, s) && k in s.memory.cache
    ensures CachedVerdict(codec, policies, acts, s, k, s.memory.policy, s.memory.cache[k].result)
  {
    var f :| Computed(c, s, f, k, s.memory.policy, s.memory.cache[k].result);
    FlightIsVerdict(codec, policies, c, acts, s, f);
    var x := s.flights[f];
    assert VerifiedBy(codec, policies, acts, s, f, x.ref, s.memory.policy, x.world.value, s.memory.cache[k].result);
    assert k == Key(x.ref, policies(x.policy).revision);
  }

  lemma SameKeySameFlight(c: Setup, s: State)
    requires SingleFlight(c, s)
    ensures forall f, g :: f in s.flights && g in s.flights && Registered(s.flights[f]) && Registered(s.flights[g]) &&
              s.flights[f].ref == s.flights[g].ref && c.policies(s.flights[f].policy).revision == c.policies(s.flights[g].policy).revision
              ==> f == g
  {
    forall f, g | f in s.flights && g in s.flights && Registered(s.flights[f]) && Registered(s.flights[g]) &&
        s.flights[f].ref == s.flights[g].ref && c.policies(s.flights[f].policy).revision == c.policies(s.flights[g].policy).revision
      ensures f == g
    {
      assert FlightKey(c, s.flights[f]) == FlightKey(c, s.flights[g]);
    }
  }
}
