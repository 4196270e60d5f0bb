/**
 Every interleaving of the verifier: requests that load the policy, look up, start or join a flight and
 wait; flights that wait for capacity, verify, store, leave and close; policy swaps; and time.  Each
 action is one atomic step of the program, and a run is any legal sequence of them.
 */
module VerifierRuns {
  import opened Text
  import opened Refs
  import opened Profile
  import opened VerifierCache

  /** What is fixed over a run.  `policies` is what each policy address holds; the other functions are
      any that satisfy `Lawful`, and VerifierTheorems puts the real ones in their place. */
  datatype Setup = Setup(
    policies: Address -> Policy,
    parse: string -> Option<Ref>,
    wellFormed: Ref -> bool,
    key: (Ref, string) -> string,
    allows: (Policy, Ref) -> bool,
    verify: (World, Ref, Policy) -> Result,
    concurrency: nat,
    positiveTtl: int,
    negativeTtl: int)

  /** Parsing gives well-formed references. */
  ghost predicate ParsesWell(c: Setup)
  {
    forall image :: c.parse(image).Some? ==> c.wellFormed(c.parse(image).value)
  }

  /** On well-formed references the key is injective. */
  ghost predicate KeysApart(c: Setup)
  {
    forall r, v, r', v' :: c.wellFormed(r) && c.wellFormed(r') && c.key(r, v) == c.key(r', v') ==> r == r' && v == v'
  }

  ghost predicate Lawful(c: Setup)
  {
    ParsesWell(c) && KeysApart(c)
  }

  datatype Phase = Queued | Verifying | Verified | Released | Stored | Removed | Closed

  /** A verification.  `world` is the world it met, None when it never got capacity; both it and `result`
      mean something from phase Verified on. */
  datatype Flight = Flight(ref: Ref, policy: Address, phase: Phase, world: Option<World>, result: Result)

  datatype Waiting = Looking | Missed | Waits(flight: Address) | Answered(result: Result)

  /** A call of VerifyImage, with the policy it loaded. */
  datatype Request = Request(image: string, policy: Address, state: Waiting)

  datatype State = State(memory: Memory, now: int, slots: nat, flights: map<Address, Flight>, requests: map<nat, Request>)

  datatype Action =
    | Call(req: nat, image: string)      // parse, load the policy, check the allow-list
    | LookupStep(req: nat)
    | StartStep(req: nat, id: Address)
    | Deliver(req: nat)                  // the flight is done
    | GiveUp(req: nat)                   // the request's context ends first
    | Acquire(flight: Address)
    | Exhaust(flight: Address)           // the flight's own timeout ends its wait for capacity
    | Finish(flight: Address, world: World)
    | Release(flight: Address)
    | StoreStep(flight: Address, insertedAt: int)
    | RemoveStep(flight: Address)
    | Close(flight: Address)
    | SetPolicy(policy: Address)
    | Tick(later: int)

  function Revision(c: Setup, p: Address): string
  {
    c.policies(p).revision
  }

  function FlightKey(c: Setup, f: Flight): string
  {
    c.key(f.ref, Revision(c, f.policy))
  }

  function RefOf(c: Setup, r: Request): Ref
    requires c.parse(r.image).Some?
  {
    c.parse(r.image).value
  }

  function RequestKey(c: Setup, r: Request): string
    requires c.parse(r.image).Some?
  {
    c.key(RefOf(c, r), Revision(c, r.policy))
  }

  ghost function Initial(policy: Address, now: int): State
  {
    State(Memory(policy, map[], map[]), now, 0, map[], map[])
  }

  predicate At(s: State, f: Address, phase: Phase)
  {
    f in s.flights && s.flights[f].phase == phase
  }

  predicate Asking(c: Setup, s: State, q: nat)
  {
    q in s.requests && c.parse(s.requests[q].image).Some?
  }

  ghost predicate Enabled(c: Setup, s: State, a: Action)
  {
    match a
    case Call(q, _) => q !in s.requests
    case LookupStep(q) => Asking(c, s, q) && s.requests[q].state == Looking
    case StartStep(q, id) => Asking(c, s, q) && s.requests[q].state == Missed && id !in s.flights
    case Deliver(q) => Asking(c, s, q) && s.requests[q].state.Waits? && At(s, s.requests[q].state.flight, Closed)
    case GiveUp(q) => Asking(c, s, q) && s.requests[q].state.Waits?
    case Acquire(f) => At(s, f, Queued) && s.slots < c.concurrency
    case Exhaust(f) => At(s, f, Queued)
    case Finish(f, _) => At(s, f, Verifying)
    case Release(f) => At(s, f, Verified)
    case StoreStep(f, at) => At(s, f, Released) && s.now <= at
    case RemoveStep(f) => At(s, f, Stored)
    case Close(f) => At(s, f, Removed)
    case SetPolicy(_) => true
    case Tick(later) => s.now <= later
  }

  function Move(s: State, f: Address, phase: Phase): State
    requires f in s.flights
  {
    s.(flights := s.flights[f := s.flights[f].(phase := phase)])
  }

  function Answer(s: State, q: nat, state: Waiting): State
    requires q in s.requests
  {
    s.(requests := s.requests[q := s.requests[q].(state := state)])
  }

  function Expiry(c: Setup, r: Result, insertedAt: int): int
  {
    insertedAt + (if r.OK() then c.positiveTtl else c.negativeTtl)
  }

  ghost function Next(c: Setup, s: State, a: Action): State
    requires Enabled(c, s, a)
  {
    match a
    case Call(q, image) => AfterCall(c, s, q, image)
    case LookupStep(q) =>
      var r := LookedUp(s.memory, RequestKey(c, s.requests[q]), s.now);
      Answer(s, q, if r.Some? then Answered(r.value) else Missed)
    case StartStep(q, id) => AfterStart(c, s, q, id)
    case Deliver(q) => Answer(s, q, Answered(s.flights[s.requests[q].state.flight].result))
    case GiveUp(q) => Answer(s, q, Answered(Refusal(ProviderDown)))
    case Acquire(f) => Move(s, f, Verifying).(slots := s.slots + 1)
    case Exhaust(f) =>
      s.(flights := s.flights[f := s.flights[f].(phase := Released, world := None, result := Refusal(ProviderDown))])
    case Finish(f, w) =>
      s.(flights := s.flights[f := s.flights[f].(phase := Verified, world := Some(w),
                                                 result := c.verify(w, s.flights[f].ref, c.policies(s.flights[f].policy)))])
    case Release(f) => Move(s, f, Released).(slots := if s.slots > 0 then s.slots - 1 else 0)
    case StoreStep(f, at) =>
      var x := s.flights[f];
      Move(s, f, Stored).(now := at,
                          memory := StoredIn(s.memory, FlightKey(c, x), x.policy, x.result, s.now, Expiry(c, x.result, at)))
    case RemoveStep(f) => Move(s, f, Removed).(memory := RemovedFrom(s.memory, FlightKey(c, s.flights[f])))
    case Close(f) => Move(s, f, Closed)
    case SetPolicy(p) => s.(memory := Installed(s.memory, p))
    case Tick(later) => s.(now := later)
  }

  ghost function AfterCall(c: Setup, s: State, q: nat, image: string): State
  {
    var p := s.memory.policy;
    var state :=
      match c.parse(image)
      case None => Answered(Refusal(NotDigest))
      case Some(ref) => if c.allows(c.policies(p), ref) then Looking else Answered(Refusal(RegistryDenied));
    s.(requests := s.requests[q := Request(image, p, state)])
  }

  ghost function AfterStart(c: Setup, s: State, q: nat, id: Address): State
    requires Asking(c, s, q)
  {
    var r := s.requests[q];
    var (memory, started) := StartIn(s.memory, RequestKey(c, r), s.now, id);
    match started
    case Cached(result) => Answer(s, q, Answered(result))
    case TooMany => Answer(s, q, Answered(Refusal(ProviderDown)))
    case Joined(f) => Answer(s, q, Waits(f))
    case Launched(f) =>
      Answer(s, q, Waits(f)).(memory := memory,
                              flights := s.flights[f := Flight(RefOf(c, r), r.policy, Queued, None, Refusal(ProviderDown))])
  }

  /** The state after a legal sequence of actions, None for any other sequence. */
  ghost function Run(c: Setup, s: State, acts: seq<Action>): Option<State>
    decreases |acts|
  {
    if acts == [] then Some(s)
    else if Enabled(c, s, acts[0]) then Run(c, Next(c, s, acts[0]), acts[1..])
    else None
  }

  // ---- The invariant ---------------------------------------------------------------------------

  function Rank(p: Phase): nat
  {
    match p
    case Queued => 0 case Verifying => 1 case Verified => 2 case Released => 3 case Stored => 4 case Removed => 5 case Closed => 6
  }

  /** The flight is still registered under its key. */
  predicate Registered(f: Flight)
  {
    Rank(f.phase) < Rank(Removed)
  }

  /** The flight has a result. */
  predicate Settled(f: Flight)
  {
    Rank(f.phase) >= Rank(Verified)
  }

  /** A settled result is what `verify` answered for the flight's own image and policy, or "down". */
  ghost predicate Honest(c: Setup, f: Flight)
  {
    && c.wellFormed(f.ref)
    && (Settled(f) && f.world.None? ==> f.result == Refusal(ProviderDown))
    && (Settled(f) && f.world.Some? ==> f.result == c.verify(f.world.value, f.ref, c.policies(f.policy)))
  }

  ghost predicate FlightsHonest(c: Setup, s: State)
  {
    forall f :: f in s.flights ==> Honest(c, s.flights[f])
  }

  /** Single flight: what is registered under a key is the one registered flight with that key. */
  ghost predicate SingleFlight(c: Setup, s: State)
  {
    && (forall k :: k in s.memory.inflight ==>
          s.memory.inflight[k] in s.flights && FlightKey(c, s.flights[s.memory.inflight[k]]) == k && Registered(s.flights[s.memory.inflight[k]]))
    && (forall f :: f in s.flights && Registered(s.flights[f]) ==>
          FlightKey(c, s.flights[f]) in s.memory.inflight && s.memory.inflight[FlightKey(c, s.flights[f])] == f)
  }

  /** Flight f computed the verdict r for key k under policy p and has stored it. */
  ghost predicate Computed(c: Setup, s: State, f: Address, k: string, p: Address, r: Result)
  {
    && f in s.flights && FlightKey(c, s.flights[f]) == k && s.flights[f].policy == p
    && Rank(s.flights[f].phase) >= Rank(Stored) && s.flights[f].world.Some? && s.flights[f].result == r
  }

  /** Every cached verdict was computed for its key under the installed policy, and none is "down". */
  ghost predicate CacheHonest(c: Setup, s: State)
  {
    forall k :: k in s.memory.cache ==>
      s.memory.cache[k].result.code != ProviderDown &&
      exists f :: Computed(c, s, f, k, s.memory.policy, s.memory.cache[k].result)
  }

  predicate Holds(f: Flight)
  {
    f.phase == Verifying || f.phase == Verified
  }

  ghost function Holders(s: State): set<Address>
  {
    set f | f in s.flights && Holds(s.flights[f])
  }

  ghost predicate Bounded(c: Setup, s: State)
  {
    && |s.memory.cache| <= MAX_CACHE
    && |s.memory.inflight| <= MAX_INFLIGHT
    && s.slots == |Holders(s)| <= c.concurrency
  }

  /** Some flight verified this very image under a policy of this revision and got r. */
  ghost predicate Witnessed(c: Setup, s: State, f: Address, ref: Ref, revision: string, r: Result)
  {
    && f in s.flights && s.flights[f].ref == ref && Revision(c, s.flights[f].policy) == revision
    && Settled(s.flights[f]) && s.flights[f].world.Some? && s.flights[f].result == r
  }

  /** What an answer r to a request is worth. */
  ghost predicate Justified(c: Setup, s: State, q: Request, r: Result)
  {
    match c.parse(q.image)
    case None => r == Refusal(NotDigest)
    case Some(ref) =>
      if !c.allows(c.policies(q.policy), ref) then r == Refusal(RegistryDenied)
      else r.code == ProviderDown || exists f :: Witnessed(c, s, f, ref, Revision(c, q.policy), r)
  }

  ghost predicate RequestHonest(c: Setup, s: State, q: Request)
  {
    match q.state
    case Answered(r) => Justified(c, s, q, r)
    case Waits(f) => Admitted(c, q) && f in s.flights && FlightKey(c, s.flights[f]) == RequestKey(c, q)
    case _ => Admitted(c, q)
  }

  ghost predicate Admitted(c: Setup, q: Request)
  {
    c.parse(q.image).Some? && c.allows(c.policies(q.policy), RefOf(c, q))
  }

  ghost predicate RequestsHonest(c: Setup, s: State)
  {
    forall q :: q in s.requests ==> RequestHonest(c, s, s.requests[q])
  }

  ghost predicate Inv(c: Setup, s: State)
  {
    Lawful(c) && FlightsHonest(c, s) && SingleFlight(c, s) && CacheHonest(c, s) && Bounded(c, s) && RequestsHonest(c, s)
  }

  // ---- Flights only grow and settled results stay -------------------------------------------------

  /** What every step leaves alone. */
  ghost predicate Ages(f: Flight, g: Flight)
  {
    && g.ref == f.ref && g.policy == f.policy && Rank(f.phase) <= Rank(g.phase)
    && (Settled(f) ==> g.result == f.result && g.world == f.world)
  }

  ghost predicate Grows(s: State, t: State)
  {
    forall f :: f in s.flights ==> f in t.flights && Ages(s.flights[f], t.flights[f])
  }

  lemma NextGrows(c: Setup, s: State, a: Action)
    requires Enabled(c, s, a)
    ensures Grows(s, Next(c, s, a))
  {
    if a.StartStep? {
      StartGrows(c, s, a.req, a.id);
    }
  }

  lemma StartGrows(c: Setup, s: State, q: nat, id: Address)
    requires Asking(c, s, q) && id !in s.flights
    ensures Grows(s, AfterStart(c, s, q, id))
  {
  }

  lemma JustifiedStays(c: Setup, s: State, t: State, q: Request, r: Result)
    requires Grows(s, t) && Justified(c, s, q, r)
    ensures Justified(c, t, q, r)
  {
    if c.parse(q.image).Some? && r.code != ProviderDown && c.allows(c.policies(q.policy), RefOf(c, q)) {
      var f :| Witnessed(c, s, f, RefOf(c, q), Revision(c, q.policy), r);
      assert Witnessed(c, t, f, RefOf(c, q), Revision(c, q.policy), r);
    }
  }

  lemma RequestStays(c: Setup, s: State, t: State, q: Request)
    requires Grows(s, t) && RequestHonest(c, s, q)
    ensures RequestHonest(c, t, q)
  {
    if q.state.Answered? {
      JustifiedStays(c, s, t, q, q.state.result);
    }
  }

  // ---- Each part of the invariant is kept ----------------------------------------------------------

  lemma KeepsFlightsHonest(c: Setup, s: State, a: Action)
    requires ParsesWell(c) && FlightsHonest(c, s) && Enabled(c, s, a)
    ensures FlightsHonest(c, Next(c, s, a))
  {
    var t := Next(c, s, a);
    forall f | f in t.flights
      ensures Honest(c, t.flights[f])
    {
      if f in s.flights {
        assert Honest(c, s.flights[f]);
      } else {
        assert c.wellFormed(RefOf(c, s.requests[a.req]));
      }
    }
  }

  lemma KeepsSingleFlight(c: Setup, s: State, a: Action)
    requires SingleFlight(c, s) && Enabled(c, s, a)
    ensures SingleFlight(c, Next(c, s, a))
  {
    var t := Next(c, s, a);
    if a.StartStep? {
      StartKeepsSingleFlight(c, s, a.req, a.id);
    } else if a.RemoveStep? {
      RemoveKeepsSingleFlight(c, s, a.flight);
    } else {
      assert t.memory.inflight == s.memory.inflight && t.flights.Keys == s.flights.Keys;
      forall f | f in s.flights
        ensures FlightKey(c, t.flights[f]) == FlightKey(c, s.flights[f]) && Registered(t.flights[f]) == Registered(s.flights[f])
      {
      }
    }
  }

  lemma RemoveKeepsSingleFlight(c: Setup, s: State, f: Address)
    requires SingleFlight(c, s) && At(s, f, Stored)
    ensures SingleFlight(c, Next(c, s, RemoveStep(f)))
  {
  }

  lemma StartKeepsSingleFlight(c: Setup, s: State, q: nat, id: Address)
    requires SingleFlight(c, s) && Enabled(c, s, StartStep(q, id))
    ensures SingleFlight(c, AfterStart(c, s, q, id))
  {
    var t := AfterStart(c, s, q, id);
    var k := RequestKey(c, s.requests[q]);
    if id in t.flights {
      assert FlightKey(c, t.flights[id]) == k && Registered(t.flights[id]);
    }
  }

  lemma KeepsCacheHonest(c: Setup, s: State, a: Action)
    requires CacheHonest(c, s) && FlightsHonest(c, s) && Enabled(c, s, a)
    ensures CacheHonest(c, Next(c, s, a))
  {
    var t := Next(c, s, a);
    NextGrows(c, s, a);
    if a.StoreStep? {
      StoreKeepsCacheHonest(c, s, a.flight, a.insertedAt);
    } else if !a.SetPolicy? {
      assert t.memory.cache == s.memory.cache && t.memory.policy == s.memory.policy;
      forall k | k in t.memory.cache
        ensures exists f :: Computed(c, t, f, k, t.memory.policy, t.memory.cache[k].result)
      {
        ComputedStays(c, s, t, k);
      }
    }
  }

  lemma ComputedStays(c: Setup, s: State, t: State, k: string)
    requires CacheHonest(c, s) && Grows(s, t) && k in s.memory.cache
    ensures exists f :: Computed(c, t, f, k, s.memory.policy, s.memory.cache[k].result)
  {
    var f :| Computed(c, s, f, k, s.memory.policy, s.memory.cache[k].result);
    assert Computed(c, t, f, k, s.memory.policy, s.memory.cache[k].result);
  }

  lemma StoreKeepsCacheHonest(c: Setup, s: State, g: Address, at: int)
    requires CacheHonest(c, s) && FlightsHonest(c, s) && Enabled(c, s, StoreStep(g, at))
    ensures CacheHonest(c, Next(c, s, StoreStep(g, at)))
  {
    var t := Next(c, s, StoreStep(g, at));
    NextGrows(c, s, StoreStep(g, at));
    var x := s.flights[g];
    assert Honest(c, x);
    StoredEntries(s.memory, FlightKey(c, x), x.policy, x.result, s.now, Expiry(c, x.result, at));
    forall k | k in t.memory.cache
      ensures t.memory.cache[k].result.code != ProviderDown
      ensures exists f :: Computed(c, t, f, k, t.memory.policy, t.memory.cache[k].result)
    {
      if k in s.memory.cache && t.memory.cache[k] == s.memory.cache[k] {
        ComputedStays(c, s, t, k);
      } else {
        OwnComputed(c, s, g, at);
        assert Computed(c, t, g, k, t.memory.policy, t.memory.cache[k].result);
      }
    }
  }

  lemma OwnComputed(c: Setup, s: State, g: Address, at: int)
    requires Enabled(c, s, StoreStep(g, at)) && Honest(c, s.flights[g]) && s.flights[g].result.code != ProviderDown
    ensures Computed(c, Next(c, s, StoreStep(g, at)), g, FlightKey(c, s.flights[g]), s.flights[g].policy, s.flights[g].result)
  {
  }

  /** After a store every entry is an old one or the stored one, and the latter only for a verdict under
      the installed policy. */
  lemma StoredEntries(m: Memory, key: string, policy: Address, r: Result, sweptAt: int, expires: int)
    ensures var n := StoredIn(m, key, policy, r, sweptAt, expires);
            n.policy == m.policy && forall k :: k in n.cache ==>
              (k in m.cache && n.cache[k] == m.cache[k]) ||
              (k == key && n.cache[k] == Entry(r, expires) && policy == m.policy && r.code != ProviderDown)
  {
  }

  lemma KeepsSlots(c: Setup, s: State, a: Action)
    requires Bounded(c, s) && Enabled(c, s, a)
    ensures Next(c, s, a).slots == |Holders(Next(c, s, a))| <= c.concurrency
  {
    if a.Acquire? {
      AcquireTakesSlot(c, s, a.flight);
    } else if a.Release? {
      ReleaseFreesSlot(c, s, a.flight);
    } else {
      OthersKeepHolders(c, s, a);
    }
  }

  lemma AcquireTakesSlot(c: Setup, s: State, f: Address)
    requires Bounded(c, s) && Enabled(c, s, Acquire(f))
    ensures Next(c, s, Acquire(f)).slots == |Holders(Next(c, s, Acquire(f)))| <= c.concurrency
  {
    assert Holders(Next(c, s, Acquire(f))) == Holders(s) + {f};
  }

  lemma ReleaseFreesSlot(c: Setup, s: State, f: Address)
    requires Bounded(c, s) && Enabled(c, s, Release(f))
    ensures Next(c, s, Release(f)).slots == |Holders(Next(c, s, Release(f)))| <= c.concurrency
  {
    assert f in Holders(s);
    assert Holders(Next(c, s, Release(f))) == Holders(s) - {f};
  }

  lemma OthersKeepHolders(c: Setup, s: State, a: Action)
    requires Enabled(c, s, a) && !a.Acquire? && !a.Release?
    ensures Holders(Next(c, s, a)) == Holders(s) && Next(c, s, a).slots == s.slots
  {
    var t := Next(c, s, a);
    if a.StartStep? {
      assert Holders(t) == Holders(s);
    } else {
      assert t.flights.Keys == s.flights.Keys;
      forall f | f in s.flights
        ensures Holds(t.flights[f]) == Holds(s.flights[f])
      {
      }
      assert Holders(t) == Holders(s);
    }
  }

  lemma KeepsBounded(c: Setup, s: State, a: Action)
    requires Bounded(c, s) && Enabled(c, s, a)
    ensures Bounded(c, Next(c, s, a))
  {
    var t := Next(c, s, a);
    KeepsSlots(c, s, a);
    if a.StoreStep? {
      var f := s.flights[a.flight];
      StoreBounded(s.memory, FlightKey(c, f), f.policy, f.result, s.now, Expiry(c, f.result, a.insertedAt));
    } else if a.RemoveStep? {
      SubsetSize(t.memory.inflight.Keys, s.memory.inflight.Keys);
      assert |t.memory.inflight| == |t.memory.inflight.Keys| && |s.memory.inflight| == |s.memory.inflight.Keys|;
    } else if !a.StartStep? {
      assert t.memory.inflight == s.memory.inflight && (t.memory.cache == s.memory.cache || t.memory.cache == map[]);
    }
  }

  lemma KeepsRequestsHonest(c: Setup, s: State, a: Action)
    requires Inv(c, s) && Enabled(c, s, a)
    ensures RequestsHonest(c, Next(c, s, a))
  {
    var t := Next(c, s, a);
    NextGrows(c, s, a);
    forall q | q in t.requests
      ensures RequestHonest(c, t, t.requests[q])
    {
      if q in s.requests && t.requests[q] == s.requests[q] {
        RequestStays(c, s, t, s.requests[q]);
      } else {
        OnlyTheAskerChanges(c, s, a, q);
        ChangedRequestHonest(c, s, a, q, t);
      }
    }
  }

  predicate Asks(a: Action, q: nat)
  {
    (a.Call? || a.LookupStep? || a.StartStep? || a.Deliver? || a.GiveUp?) && a.req == q
  }

  lemma OnlyTheAskerChanges(c: Setup, s: State, a: Action, q: nat)
    requires Enabled(c, s, a) && q in Next(c, s, a).requests
    requires q !in s.requests || Next(c, s, a).requests[q] != s.requests[q]
    ensures Asks(a, q)
  {
  }

  lemma ChangedRequestHonest(c: Setup, s: State, a: Action, q: nat, t: State)
    requires Inv(c, s) && Enabled(c, s, a) && Asks(a, q) && t == Next(c, s, a) && q in t.requests
    ensures RequestHonest(c, t, t.requests[q])
  {
    if a.Deliver? {
      DeliverAnswersHonestly(c, s, q);
    } else if a.LookupStep? || a.StartStep? {
      ReadHonest(c, s, a, q);
    } else if a.GiveUp? {
      assert RequestHonest(c, s, s.requests[q]);
    }
  }

  lemma DeliverAnswersHonestly(c: Setup, s: State, q: nat)
    requires Lawful(c) && FlightsHonest(c, s) && Enabled(c, s, Deliver(q)) && RequestHonest(c, s, s.requests[q])
    ensures RequestHonest(c, Next(c, s, Deliver(q)), Next(c, s, Deliver(q)).requests[q])
  {
    DeliveredIsWitnessed(c, s, s.requests[q], s.requests[q].state.flight);
    DeliverHonest(c, s, q);
  }

  lemma DeliverHonest(c: Setup, s: State, q: nat)
    requires Enabled(c, s, Deliver(q)) && Justified(c, s, s.requests[q], s.flights[s.requests[q].state.flight].result)
    ensures RequestHonest(c, Next(c, s, Deliver(q)), Next(c, s, Deliver(q)).requests[q])
  {
    NextGrows(c, s, Deliver(q));
    JustifiedStays(c, s, Next(c, s, Deliver(q)), s.requests[q], s.flights[s.requests[q].state.flight].result);
  }

  lemma ReadHonest(c: Setup, s: State, a: Action, q: nat)
    requires Lawful(c) && FlightsHonest(c, s) && SingleFlight(c, s) && CacheHonest(c, s)
    requires Enabled(c, s, a) && (a == LookupStep(q) || (a.StartStep? && a.req == q)) && RequestHonest(c, s, s.requests[q])
    ensures RequestHonest(c, Next(c, s, a), Next(c, s, a).requests[q])
  {
    NextGrows(c, s, a);
    if RequestKey(c, s.requests[q]) in s.memory.cache {
      CachedIsWitnessed(c, s, s.requests[q]);
    }
    AskingHonest(c, s, a, q);
  }

  /** A request that reads the memory goes on honestly when what it may find there answers it. */
  lemma AskingHonest(c: Setup, s: State, a: Action, q: nat)
    requires (a == LookupStep(q) || (a.StartStep? && a.req == q)) && Enabled(c, s, a) && Admitted(c, s.requests[q])
    requires SingleFlight(c, s) && Grows(s, Next(c, s, a))
    requires RequestKey(c, s.requests[q]) in s.memory.cache ==>
               Justified(c, s, s.requests[q], s.memory.cache[RequestKey(c, s.requests[q])].result)
    ensures RequestHonest(c, Next(c, s, a), Next(c, s, a).requests[q])
  {
    var t, r := Next(c, s, a), s.requests[q];
    var k := RequestKey(c, r);
    if k in s.memory.cache {
      JustifiedStays(c, s, t, r, s.memory.cache[k].result);
    }
  }

  /** A cached verdict answers the request it is found for, by the injectivity of the key. */
  lemma CachedIsWitnessed(c: Setup, s: State, q: Request)
    requires Lawful(c) && FlightsHonest(c, s) && CacheHonest(c, s) && Admitted(c, q) && RequestKey(c, q) in s.memory.cache
    ensures Justified(c, s, q, s.memory.cache[RequestKey(c, q)].result)
  {
    var k := RequestKey(c, q);
    var r := s.memory.cache[k].result;
    var f :| Computed(c, s, f, k, s.memory.policy, r);
    assert Honest(c, s.flights[f]);
    assert Witnessed(c, s, f, RefOf(c, q), Revision(c, q.policy), r);
  }

  lemma DeliveredIsWitnessed(c: Setup, s: State, q: Request, f: Address)
    requires Lawful(c) && FlightsHonest(c, s) && Admitted(c, q)
    requires f in s.flights && Settled(s.flights[f]) && FlightKey(c, s.flights[f]) == RequestKey(c, q)
    ensures Justified(c, s, q, s.flights[f].result)
  {
    assert Honest(c, s.flights[f]);
    if s.flights[f].world.Some? {
      assert Witnessed(c, s, f, RefOf(c, q), Revision(c, q.policy), s.flights[f].result);
    }
  }

  lemma NextKeepsInv(c: Setup, s: State, a: Action)
    requires Inv(c, s) && Enabled(c, s, a)
    ensures Inv(c, Next(c, s, a))
  {
    KeepsFlightsHonest(c, s, a);
    KeepsSingleFlight(c, s, a);
    KeepsCacheHonest(c, s, a);
    KeepsBounded(c, s, a);
    KeepsRequestsHonest(c, s, a);
  }

  lemma InitialInv(c: Setup, policy: Address, now: int)
    requires Lawful(c)
    ensures Inv(c, Initial(policy, now))
  {
    assert Holders(Initial(policy, now)) == {};
  }

  /** The invariant holds in every state of every run. */
  lemma {:induction false} RunKeepsInv(c: Setup, s: State, acts: seq<Action>)
    requires Inv(c, s) && Run(c, s, acts).Some?
    ensures Inv(c, Run(c, s, acts).value)
    decreases |acts|
  {
    if acts == [] {
    } else {
      NextKeepsInv(c, s, acts[0]);
      RunKeepsInv(c, Next(c, s, acts[0]), acts[1..]);
    }
  }

  /** What holds at a point of a run and is kept by each step holds at every later point. */
  lemma {:induction false} Along(c: Setup, before: seq<Action>, s: State, acts: seq<Action>, t: State, p: (seq<Action>, State) -> bool)
    requires p(before, s) && Run(c, s, acts) == Some(t)
    requires forall m, x, a :: Enabled(c, x, a) && p(m, x) ==> p(m + [a], Next(c, x, a))
    ensures p(before + acts, t)
    decreases |acts|
  {
    if acts == [] {
      assert before + acts == before;
    } else {
      Along(c, before + [acts[0]], Next(c, s, acts[0]), acts[1..], t, p);
      assert before + [acts[0]] + acts[1..] == before + acts;
    }
  }
}
