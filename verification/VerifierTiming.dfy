/**
 When the verifier answers from its memory: no answer outlives its verdict, a recent verdict does answer, and
 ADM-PROVIDER-DOWN has one of four causes.
 */
module VerifierTiming {
  import opened Text
  import opened Refs
  import opened Profile
  import opened VerifierCache
  import opened VerifierRuns
  import opened VerifierTheorems

  /** How long a stored verdict may be answered. */
  function Lifetime(c: Setup, r: Result): int
  {
    match r.code
    case Passed => c.positiveTtl
    case _ => c.negativeTtl
  }

  // ---- No answer outlives its verdict --------------------------------------------------------------

  /** The entry for key k was put there by flight f, stored at `at`: with its verdict and its lifetime. */
  ghost predicate StoredAt(c: Setup, s: State, acts: seq<Action>, k: string, f: Address, at: int)
    requires k in s.memory.cache
  {
    var e := s.memory.cache[k];
    StoreStep(f, at) in acts && Computed(c, s, f, k, s.memory.policy, e.result) && e.expires == at + Lifetime(c, e.result)
  }

  ghost predicate EntriesTimed(c: Setup, s: State, acts: seq<Action>)
  {
    forall k :: k in s.memory.cache ==> exists f, at :: StoredAt(c, s, acts, k, f, at)
  }

  lemma TimedStays(c: Setup, s: State, t: State, acts: seq<Action>, more: seq<Action>, k: string)
    requires EntriesTimed(c, s, acts) && Grows(s, t) && t.memory.policy == s.memory.policy
    requires k in s.memory.cache && k in t.memory.cache && t.memory.cache[k] == s.memory.cache[k]
    ensures exists f, at :: StoredAt(c, t, acts + more, k, f, at)
  {
    var f, at :| StoredAt(c, s, acts, k, f, at);
    assert StoredAt(c, t, acts + more, k, f, at);
  }

  lemma StoreTimed(c: Setup, s: State, acts: seq<Action>, g: Address, at: int)
    requires EntriesTimed(c, s, acts) && FlightsHonest(c, s) && Enabled(c, s, StoreStep(g, at))
    ensures EntriesTimed(c, Next(c, s, StoreStep(g, at)), acts + [StoreStep(g, at)])
  {
    var a := StoreStep(g, at);
    var t, x := Next(c, s, a), s.flights[g];
    NextGrows(c, s, a);
    assert Honest(c, x);
    StoredEntries(s.memory, FlightKey(c, x), x.policy, x.result, s.now, Expiry(c, x.result, at));
    forall k | k in t.memory.cache
      ensures exists f, stored :: StoredAt(c, t, acts + [a], k, f, stored)
    {
      if k in s.memory.cache && t.memory.cache[k] == s.memory.cache[k] {
        TimedStays(c, s, t, acts, [a], k);
      } else {
        OwnTimed(c, s, acts, g, at, k);
      }
    }
  }

  lemma OwnTimed(c: Setup, s: State, acts: seq<Action>, g: Address, at: int, k: string)
    requires Enabled(c, s, StoreStep(g, at)) && Honest(c, s.flights[g]) && k == FlightKey(c, s.flights[g])
    requires s.flights[g].policy == s.memory.policy && s.flights[g].result.code != ProviderDown
    ensures k in Next(c, s, StoreStep(g, at)).memory.cache
    ensures StoredAt(c, Next(c, s, StoreStep(g, at)), acts + [StoreStep(g, at)], k, g, at)
  {
    assert (acts + [StoreStep(g, at)])[|acts|] == StoreStep(g, at);
  }

  lemma StepTimed(c: Setup, s: State, acts: seq<Action>, a: Action)
    requires EntriesTimed(c, s, acts) && FlightsHonest(c, s) && Enabled(c, s, a)
    ensures EntriesTimed(c, Next(c, s, a), acts + [a])
  {
    if a.StoreStep? {
      StoreTimed(c, s, acts, a.flight, a.insertedAt);
    } else if !a.SetPolicy? {
      var t := Next(c, s, a);
      NextGrows(c, s, a);
      OthersLeaveCache(c, s, a);
      forall k | k in t.memory.cache
        ensures exists f, at :: StoredAt(c, t, acts + [a], k, f, at)
      {
        TimedStays(c, s, t, acts, [a], k);
      }
    }
  }

  /** A point of a run with every entry accounted for. */
  ghost predicate Timed(c: Setup, acts: seq<Action>, s: State)
  {
    Inv(c, s) && EntriesTimed(c, s, acts)
  }

  lemma TimedStep(c: Setup, acts: seq<Action>, s: State, a: Action)
    requires Timed(c, acts, s) && Enabled(c, s, a)
    ensures Timed(c, acts + [a], Next(c, s, a))
  {
    StepTimed(c, s, acts, a);
    NextKeepsInv(c, s, a);
  }

  lemma RunTimed(c: Setup, s: State, acts: seq<Action>, t: State)
    requires Timed(c, [], s) && Run(c, s, acts) == Some(t)
    ensures Timed(c, acts, t)
  {
    forall m, x, a | Enabled(c, x, a) && Timed(c, m, x)
      ensures Timed(c, m + [a], Next(c, x, a))
    {
      TimedStep(c, m, x, a);
    }
    Along(c, [], s, acts, t, (m, x) => Timed(c, m, x));
    assert [] + acts == acts;
  }

  /** The request reads the memory: its lookup, or the start of a flight, which looks once more. */
  predicate Reads(a: Action, q: nat)
  {
    a == LookupStep(q) || (a.StartStep? && a.req == q)
  }

  /** By reading the memory the request is answered with r. */
  ghost predicate ReadsAnswer(c: Setup, s: State, a: Action, q: nat, r: Result)
  {
    Reads(a, q) && Enabled(c, s, a) && q in Next(c, s, a).requests && Next(c, s, a).requests[q].state == Answered(r)
  }

  /** A verdict read from the memory is an entry that has not expired. */
  lemma ReadMeans(c: Setup, s: State, a: Action, q: nat, r: Result)
    requires ReadsAnswer(c, s, a, q, r) && r.code != ProviderDown
    ensures var k := RequestKey(c, s.requests[q]);
            k in s.memory.cache && s.now <= s.memory.cache[k].expires && r == s.memory.cache[k].result
  {
  }

  /** Over every run: when a request reads a verdict from the memory, a flight of the run got that verdict from the
      plain verification of this very image, under the installed policy and of the loaded policy's revision, and
      stored it no longer ago than the verdict's lifetime. */
  lemma AnsweredInTime(codec: Codec, policies: Address -> Policy, c: Setup, policy: Address, now: int,
                       acts: seq<Action>, s: State, q: nat, a: Action, r: Result) returns (f: Address, at: int, w: World)
    requires c == RealSetup(codec, policies, c.concurrency, c.positiveTtl, c.negativeTtl)
    requires Reaches(c, policy, now, acts, s) && ReadsAnswer(c, s, a, q, r) && r.code != ProviderDown
    ensures StoreStep(f, at) in acts && s.now <= at + (if r.code == Passed then c.positiveTtl else c.negativeTtl)
    ensures ParseRef(s.requests[q].image).Some?
    ensures VerifiedBy(codec, policies, acts, s, f, ParseRef(s.requests[q].image).value, s.memory.policy, w, r)
    ensures policies(s.memory.policy).revision == policies(s.requests[q].policy).revision
  {
    ReachableTimed(codec, policies, c, policy, now, acts, s);
    ReachableMeets(c, policy, now, acts, s);
    ReadMeans(c, s, a, q, r);
    f, at := EntryInTime(c, s, acts, q);
    EntryVerified(codec, policies, c, acts, s, q, f);
    w := s.flights[f].world.value;
  }

  lemma EntryVerified(codec: Codec, policies: Address -> Policy, c: Setup, acts: seq<Action>, s: State, q: nat, f: Address)
    requires c == RealSetup(codec, policies, c.concurrency, c.positiveTtl, c.negativeTtl)
    requires FlightsHonest(c, s) && AllMetIn(s, acts) && Asking(c, s, q) && f in s.flights && s.flights[f].world.Some?
    requires s.flights[f].ref == RefOf(c, s.requests[q]) && Revision(c, s.flights[f].policy) == Revision(c, s.requests[q].policy)
    ensures var x := s.flights[f];
            && ParseRef(s.requests[q].image) == Some(x.ref) && policies(x.policy).revision == policies(s.requests[q].policy).revision
            && VerifiedBy(codec, policies, acts, s, f, x.ref, x.policy, x.world.value, x.result)
  {
    FlightIsVerdict(codec, policies, c, acts, s, f);
  }

  lemma ReachableTimed(codec: Codec, policies: Address -> Policy, c: Setup, policy: Address, now: int, acts: seq<Action>, s: State)
    requires c == RealSetup(codec, policies, c.concurrency, c.positiveTtl, c.negativeTtl) && Reaches(c, policy, now, acts, s)
    ensures Inv(c, s) && EntriesTimed(c, s, acts)
  {
    RealParsesWell(codec, policies, c.concurrency, c.positiveTtl, c.negativeTtl);
    RealKeysApart(codec, policies, c.concurrency, c.positiveTtl, c.negativeTtl);
    ReachableInv(c, policy, now, acts, s);
    InitialInv(c, policy, now);
    RunTimed(c, Initial(policy, now), acts, s);
  }

  lemma EntryInTime(c: Setup, s: State, acts: seq<Action>, q: nat) returns (f: Address, at: int)
    requires KeysApart(c) && ParsesWell(c) && FlightsHonest(c, s) && EntriesTimed(c, s, acts) && Asking(c, s, q)
    requires RequestKey(c, s.requests[q]) in s.memory.cache
    ensures var e := s.memory.cache[RequestKey(c, s.requests[q])];
            && StoreStep(f, at) in acts && e.expires == at + Lifetime(c, e.result)
            && f in s.flights && s.flights[f].ref == RefOf(c, s.requests[q]) && s.flights[f].policy == s.memory.policy
            && s.flights[f].world.Some? && s.flights[f].result == e.result
            && Revision(c, s.memory.policy) == Revision(c, s.requests[q].policy)
  {
    var k := RequestKey(c, s.requests[q]);
    f, at :| StoredAt(c, s, acts, k, f, at);
    assert Honest(c, s.flights[f]);
  }

  // ---- A recent verdict does answer ----------------------------------------------------------------

  /** The memory holds flight f's verdict, stored at `at`, with its whole lifetime, and no other flight for its key
      is under way. */
  ghost predicate Holding(c: Setup, s: State, f: Address, at: int)
  {
    && SingleFlight(c, s) && |s.memory.cache| <= 4096 && f in s.flights && PastStore(s.flights[f]) && s.flights[f].policy == s.memory.policy
    && s.flights[f].result.code != ProviderDown && Sole(c, s, f) && KeyOf(c, s, f) in s.memory.cache
    && s.memory.cache[KeyOf(c, s, f)] == Entry(s.flights[f].result, at + Lifetime(c, s.flights[f].result))
  }

  lemma HoldingStep(c: Setup, s: State, a: Action, f: Address, at: int)
    requires Holding(c, s, f, at) && s.now <= at + Lifetime(c, s.flights[f].result)
    requires Enabled(c, s, a) && Undisturbed(c, s, a, KeyOf(c, s, f))
    ensures Holding(c, Next(c, s, a), f, at)
    ensures Next(c, s, a).flights[f].result == s.flights[f].result && KeyOf(c, Next(c, s, a), f) == KeyOf(c, s, f)
  {
    StepStartsNone(c, s, a, f);
    StepKeepsSole(c, s, a, f);
    KeepsSingleFlight(c, s, a);
    CacheStaysBounded(c, s, a);
    NextGrows(c, s, a);
    EntryStays(c, s, a, f);
    HoldingMoves(c, s, Next(c, s, a), f, at);
  }

  lemma HoldingMoves(c: Setup, s: State, t: State, f: Address, at: int)
    requires Holding(c, s, f, at) && Grows(s, t) && SingleFlight(c, t) && |t.memory.cache| <= 4096 && f in t.flights && Sole(c, t, f)
    requires t.memory.policy == s.memory.policy && KeyOf(c, s, f) in t.memory.cache
    requires t.memory.cache[KeyOf(c, s, f)] == s.memory.cache[KeyOf(c, s, f)]
    ensures Holding(c, t, f, at) && t.flights[f].result == s.flights[f].result && KeyOf(c, t, f) == KeyOf(c, s, f)
  {
    assert Ages(s.flights[f], t.flights[f]);
  }

  lemma EntryStays(c: Setup, s: State, a: Action, f: Address)
    requires f in s.flights && PastStore(s.flights[f]) && Sole(c, s, f) && Enabled(c, s, a) && |s.memory.cache| <= 4096
    requires KeyOf(c, s, f) in s.memory.cache && s.now <= s.memory.cache[KeyOf(c, s, f)].expires
    requires Undisturbed(c, s, a, KeyOf(c, s, f))
    ensures var t := Next(c, s, a);
            t.memory.policy == s.memory.policy && KeyOf(c, s, f) in t.memory.cache
            && t.memory.cache[KeyOf(c, s, f)] == s.memory.cache[KeyOf(c, s, f)]
  {
    if a.StoreStep? {
      EntryKept(c, s, a.flight, a.insertedAt, f);
    } else {
      OthersLeaveCache(c, s, a);
    }
  }

  lemma EntryKept(c: Setup, s: State, g: Address, at: int, f: Address)
    requires f in s.flights && PastStore(s.flights[f]) && Sole(c, s, f) && Enabled(c, s, StoreStep(g, at)) && |s.memory.cache| <= 4096
    requires KeyOf(c, s, f) in s.memory.cache && s.now <= s.memory.cache[KeyOf(c, s, f)].expires
    requires Undisturbed(c, s, StoreStep(g, at), KeyOf(c, s, f))
    ensures var t := Next(c, s, StoreStep(g, at));
            t.memory.policy == s.memory.policy && KeyOf(c, s, f) in t.memory.cache
            && t.memory.cache[KeyOf(c, s, f)] == s.memory.cache[KeyOf(c, s, f)]
  {
    var x := s.flights[g];
    assert g != f && Registered(x) && FlightKey(c, x) != KeyOf(c, s, f);
    StoredKeeps(s.memory, FlightKey(c, x), x.policy, x.result, s.now, Expiry(c, x.result, at), KeyOf(c, s, f));
  }

  /** In each step of the run the policy stays, and another verdict is stored only where there is room. */
  ghost predicate UndisturbedRun(c: Setup, s: State, acts: seq<Action>, k: string)
    decreases |acts|
  {
    acts != [] && Enabled(c, s, acts[0]) ==>
      Undisturbed(c, s, acts[0], k) && UndisturbedRun(c, Next(c, s, acts[0]), acts[1..], k)
  }

  lemma {:induction false} TimeGoesOn(c: Setup, s: State, acts: seq<Action>, t: State)
    requires Run(c, s, acts) == Some(t)
    ensures s.now <= t.now
    decreases |acts|
  {
    if acts != [] {
      TimeGoesOn(c, Next(c, s, acts[0]), acts[1..], t);
    }
  }

  lemma {:induction false} HoldingRun(c: Setup, s: State, acts: seq<Action>, t: State, f: Address, at: int)
    requires Holding(c, s, f, at) && Run(c, s, acts) == Some(t) && UndisturbedRun(c, s, acts, KeyOf(c, s, f))
    requires t.now <= at + Lifetime(c, s.flights[f].result)
    ensures Holding(c, t, f, at) && t.flights[f].result == s.flights[f].result && KeyOf(c, t, f) == KeyOf(c, s, f)
    decreases |acts|
  {
    if acts != [] {
      TimeGoesOn(c, s, acts, t);
      HoldingStep(c, s, acts[0], f, at);
      HoldingRun(c, Next(c, s, acts[0]), acts[1..], t, f, at);
    }
  }

  lemma StoreHolds(c: Setup, s: State, f: Address, at: int)
    requires SingleFlight(c, s) && |s.memory.cache| <= 4096 && Enabled(c, s, StoreStep(f, at))
    requires s.flights[f].policy == s.memory.policy && s.flights[f].result.code != ProviderDown
    ensures var t := Next(c, s, StoreStep(f, at));
            Holding(c, t, f, at) && t.flights[f].result == s.flights[f].result && KeyOf(c, t, f) == KeyOf(c, s, f)
  {
    assert Registered(s.flights[f]);
    KeepsSingleFlight(c, s, StoreStep(f, at));
    CacheStaysBounded(c, s, StoreStep(f, at));
  }

  lemma HeldAnswers(c: Setup, s: State, f: Address, at: int, q: nat, a: Action)
    requires Holding(c, s, f, at) && s.now <= at + Lifetime(c, s.flights[f].result)
    requires Reads(a, q) && Enabled(c, s, a) && RequestKey(c, s.requests[q]) == KeyOf(c, s, f)
    ensures ReadsAnswer(c, s, a, q, s.flights[f].result) && Next(c, s, a).flights == s.flights
  {
  }

  /** A verdict stored under the installed policy answers every request for its image and revision that reads the
      memory within its lifetime, as long as the policy stays and no store finds the memory full of entries that
      have not expired; no new verification is started for such a request. */
  lemma AnswersWhileItLasts(c: Setup, s: State, f: Address, at: int, acts: seq<Action>, t: State, q: nat, a: Action)
    requires Inv(c, s) && Enabled(c, s, StoreStep(f, at))
    requires s.flights[f].policy == s.memory.policy && s.flights[f].result.code != ProviderDown
    requires Run(c, Next(c, s, StoreStep(f, at)), acts) == Some(t)
    requires UndisturbedRun(c, Next(c, s, StoreStep(f, at)), acts, KeyOf(c, s, f))
    requires t.now <= at + (if s.flights[f].result.code == Passed then c.positiveTtl else c.negativeTtl)
    requires Reads(a, q) && Enabled(c, t, a) && RefOf(c, t.requests[q]) == s.flights[f].ref
    requires Revision(c, t.requests[q].policy) == Revision(c, s.flights[f].policy)
    ensures ReadsAnswer(c, t, a, q, s.flights[f].result) && Next(c, t, a).flights == t.flights
  {
    StoreHolds(c, s, f, at);
    HoldingRun(c, Next(c, s, StoreStep(f, at)), acts, t, f, at);
    HeldAnswers(c, t, f, at, q, a);
  }

  // ---- What the start of a flight does, and why an answer is "down" --------------------------------

  /** The flights that are registered. */
  ghost function Under(s: State): set<Address>
  {
    set f | f in s.flights && Registered(s.flights[f])
  }

  lemma {:induction false} InjectiveSize<K, V>(m: map<K, V>)
    requires forall k, k' :: k in m && k' in m && m[k] == m[k'] ==> k == k'
    ensures |m.Values| == |m|
  {
    if m != map[] {
      var k :| k in m;
      var rest := m - {k};
      assert m.Keys == rest.Keys + {k};
      assert |m| == |m.Keys| && |rest| == |rest.Keys|;
      InjectiveSize(rest);
      assert m.Values == rest.Values + {m[k]};
    }
  }

  lemma RegisteredSize(c: Setup, s: State)
    requires SingleFlight(c, s)
    ensures |Under(s)| == |s.memory.inflight|
  {
    var m := s.memory.inflight;
    InjectiveSize(m);
    forall f | f in Under(s)
      ensures f in m.Values
    {
      assert m[FlightKey(c, s.flights[f])] == f;
    }
    assert m.Values == Under(s);
  }

  /** The request waits for flight f; the flights are those of s. */
  ghost predicate WaitsFor(s: State, t: State, q: nat, f: Address)
  {
    q in t.requests && t.requests[q].state == Waits(f) && t.flights == s.flights
  }

  ghost predicate RefusedDown(s: State, t: State, q: nat)
  {
    q in t.requests && t.requests[q].state == Answered(Refusal(ProviderDown)) && t.flights == s.flights
  }

  /** The request waits for a new flight for its image, under the policy it loaded. */
  ghost predicate Launches(s: State, t: State, q: nat, id: Address, ref: Ref)
    requires q in s.requests
  {
    && q in t.requests && t.requests[q].state == Waits(id)
    && t.flights == s.flights[id := Flight(ref, s.requests[q].policy, Queued, None, Refusal(ProviderDown))]
  }

  /** A request that has to verify and finds no recent verdict waits for the flight of its image and revision if
      there is one; else it is answered "down" if 256 flights are under way, and starts one if fewer are. */
  lemma StartMeans(c: Setup, s: State, q: nat, id: Address)
    requires SingleFlight(c, s) && Enabled(c, s, StartStep(q, id))
    requires RequestKey(c, s.requests[q]) in s.memory.cache ==> s.memory.cache[RequestKey(c, s.requests[q])].expires < s.now
    ensures forall f :: f in Under(s) && KeyOf(c, s, f) == RequestKey(c, s.requests[q]) ==> WaitsFor(s, Next(c, s, StartStep(q, id)), q, f)
    ensures (forall f :: f in Under(s) ==> KeyOf(c, s, f) != RequestKey(c, s.requests[q])) ==>
              if |Under(s)| >= 256 then RefusedDown(s, Next(c, s, StartStep(q, id)), q)
              else Launches(s, Next(c, s, StartStep(q, id)), q, id, RefOf(c, s.requests[q]))
  {
    RegisteredSize(c, s);
    var k := RequestKey(c, s.requests[q]);
    if k in s.memory.inflight {
      assert s.memory.inflight[k] in Under(s);
    }
  }

  // ---- Why an answer is "down" ---------------------------------------------------------------------

  /** A flight that ended without meeting a world gave up waiting for capacity. */
  ghost predicate GaveUpIn(s: State, acts: seq<Action>)
  {
    forall f :: f in s.flights && Settled(s.flights[f]) && s.flights[f].world.None? ==> Exhaust(f) in acts
  }

  lemma StepGivesUp(c: Setup, s: State, acts: seq<Action>, a: Action)
    requires GaveUpIn(s, acts) && Enabled(c, s, a)
    ensures GaveUpIn(Next(c, s, a), acts + [a])
  {
    var t := Next(c, s, a);
    forall f | f in t.flights && Settled(t.flights[f]) && t.flights[f].world.None?
      ensures Exhaust(f) in acts + [a]
    {
      if a == Exhaust(f) {
        assert (acts + [a])[|acts|] == a;
      } else {
        assert f in s.flights && Settled(s.flights[f]) && s.flights[f].world.None?;
      }
    }
  }

  /** Step a answers the request. */
  ghost predicate Answers(c: Setup, s: State, a: Action, q: nat, r: Result)
  {
    && Enabled(c, s, a) && q in Next(c, s, a).requests && Next(c, s, a).requests[q].state == Answered(r)
    && !(q in s.requests && s.requests[q].state == Answered(r))
  }

  /** The flight the request waited for ended "down": it got no capacity, or its verification gave that. */
  ghost predicate FlightDown(codec: Codec, policies: Address -> Policy, acts: seq<Action>, s: State, q: nat, f: Address, r: Result)
  {
    && q in s.requests && s.requests[q].state == Waits(f) && f in s.flights
    && (Exhaust(f) in acts || exists w :: VerifiedBy(codec, policies, acts, s, f, s.flights[f].ref, s.flights[f].policy, w, r))
  }

  /** Over every run: a request is answered ADM-PROVIDER-DOWN only because its own context ended, because 256 other
      verifications were under way, or because its verification got no capacity or could not be completed. */
  lemma DownHasACause(codec: Codec, policies: Address -> Policy, c: Setup, policy: Address, now: int,
                      acts: seq<Action>, s: State, a: Action, q: nat, r: Result)
    requires c == RealSetup(codec, policies, c.concurrency, c.positiveTtl, c.negativeTtl)
    requires Reaches(c, policy, now, acts, s) && Answers(c, s, a, q, r) && r.code == ProviderDown
    ensures || a == GiveUp(q)
            || (a.StartStep? && a.req == q && |Under(s)| >= 256)
            || (a == Deliver(q) && exists f :: FlightDown(codec, policies, acts, s, q, f, r))
  {
    ReachableTimed(codec, policies, c, policy, now, acts, s);
    RegisteredSize(c, s);
    DownSteps(c, s, a, q, r);
    if a == Deliver(q) {
      ReachableMeets(c, policy, now, acts, s);
      ReachableGivesUp(c, policy, now, acts, s);
      DeliveredDown(codec, policies, c, acts, s, q, r);
    }
  }

  lemma ReachableGivesUp(c: Setup, policy: Address, now: int, acts: seq<Action>, s: State)
    requires Reaches(c, policy, now, acts, s)
    ensures GaveUpIn(s, acts)
  {
    forall m, x, a | Enabled(c, x, a) && GaveUpIn(x, m)
      ensures GaveUpIn(Next(c, x, a), m + [a])
    {
      StepGivesUp(c, x, m, a);
    }
    Along(c, [], Initial(policy, now), acts, s, (m, x) => GaveUpIn(x, m));
    assert [] + acts == acts;
  }

  lemma DeliveredDown(codec: Codec, policies: Address -> Policy, c: Setup, acts: seq<Action>, s: State, q: nat, r: Result)
    requires c == RealSetup(codec, policies, c.concurrency, c.positiveTtl, c.negativeTtl)
    requires FlightsHonest(c, s) && AllMetIn(s, acts) && GaveUpIn(s, acts)
    requires Enabled(c, s, Deliver(q)) && s.flights[s.requests[q].state.flight].result == r
    ensures exists f :: FlightDown(codec, policies, acts, s, q, f, r)
  {
    var f := s.requests[q].state.flight;
    if s.flights[f].world.Some? {
      FlightIsVerdict(codec, policies, c, acts, s, f);
      assert VerifiedBy(codec, policies, acts, s, f, s.flights[f].ref, s.flights[f].policy, s.flights[f].world.value, r);
    }
    assert FlightDown(codec, policies, acts, s, q, f, r);
  }

  lemma DownSteps(c: Setup, s: State, a: Action, q: nat, r: Result)
    requires CacheHonest(c, s) && Answers(c, s, a, q, r) && r.code == ProviderDown
    ensures || a == GiveUp(q)
            || (a.StartStep? && a.req == q && |s.memory.inflight| >= 256)
            || (a == Deliver(q) && s.requests[q].state.Waits? && s.flights[s.requests[q].state.flight].result == r)
  {
    OnlyTheAskerChanges(c, s, a, q);
  }
}
