/**
 The memory the verifier's requests and flights share under one lock: the installed policy, the verdict
 cache and the verifications in progress.  The critical sections are methods of a class; each is proved
 against a function on the abstract memory, which the interleaving model runs.
 */
module VerifierCache {
  import opened Text
  import opened Profile

  const MAX_INFLIGHT := 256
  const MAX_CACHE := 4096

  /** A policy address and a flight address: two are equal when they are the same object. */
  type Address = nat

  datatype Entry = Entry(result: Result, expires: int)

  predicate Fresh(e: Entry, now: int)
  {
    now <= e.expires
  }

  datatype Memory = Memory(policy: Address, cache: map<string, Entry>, inflight: map<string, Address>)

  /** What `start` tells its caller. */
  datatype Started = Cached(result: Result) | Joined(flight: Address) | Launched(flight: Address) | TooMany

  function Installed(m: Memory, policy: Address): Memory
  {
    m.(policy := policy, cache := map[])
  }

  function LookedUp(m: Memory, key: string, now: int): Option<Result>
  {
    if key in m.cache && Fresh(m.cache[key], now) then Some(m.cache[key].result) else None
  }

  function StartIn(m: Memory, key: string, now: int, flight: Address): (Memory, Started)
  {
    if key in m.cache && Fresh(m.cache[key], now) then (m, Cached(m.cache[key].result))
    else if key in m.inflight then (m, Joined(m.inflight[key]))
    else if |m.inflight| >= MAX_INFLIGHT then (m, TooMany)
    else (m.(inflight := m.inflight[key := flight]), Launched(flight))
  }

  function Swept(cache: map<string, Entry>, now: int): map<string, Entry>
  {
    map k | k in cache && Fresh(cache[k], now) :: cache[k]
  }

  /** Room for one more entry: nothing to do below the bound, else the expired entries go, else all do. */
  function MakeRoom(cache: map<string, Entry>, now: int): map<string, Entry>
  {
    if |cache| < MAX_CACHE then cache
    else if |Swept(cache, now)| < MAX_CACHE then Swept(cache, now)
    else map[]
  }

  function StoredIn(m: Memory, key: string, policy: Address, r: Result, sweptAt: int, expires: int): Memory
  {
    if r.code == ProviderDown || m.policy != policy then m
    else m.(cache := MakeRoom(m.cache, sweptAt)[key := Entry(r, expires)])
  }

  function RemovedFrom(m: Memory, key: string): Memory
  {
    m.(inflight := m.inflight - {key})
  }

  lemma {:induction false} SubsetSize<T>(a: set<T>, b: set<T>)
    requires a <= b
    ensures |a| <= |b|
  {
    assert b == a + (b - a);
  }

  /** Storing keeps the bound. */
  lemma StoreBounded(m: Memory, key: string, policy: Address, r: Result, sweptAt: int, expires: int)
    requires |m.cache| <= MAX_CACHE
    ensures |StoredIn(m, key, policy, r, sweptAt, expires).cache| <= MAX_CACHE
  {
    var room := MakeRoom(m.cache, sweptAt);
    assert |room| < MAX_CACHE;
    assert |room[key := Entry(r, expires)]| <= |room| + 1;
  }

  class Verifier {
    var policy: Address
    var cache: map<string, Entry>
    var inflight: map<string, Address>
    var flights: nat        // flights allocated so far; the next one is a new object
    var hits: nat
    var misses: nat
    const positiveTtl: int
    const negativeTtl: int

    ghost function Abs(): Memory
      reads this
    {
      Memory(policy, cache, inflight)
    }

    ghost predicate Valid()
      reads this
    {
      && |cache| <= MAX_CACHE && |inflight| <= MAX_INFLIGHT
      && forall k :: k in inflight ==> inflight[k] < flights
    }

    constructor (policy: Address, positiveTtl: int, negativeTtl: int)
      ensures Valid() && Abs() == Memory(policy, map[], map[])
      ensures this.positiveTtl == positiveTtl && this.negativeTtl == negativeTtl
      ensures hits == misses == flights == 0
    {
      this.policy, this.cache, this.inflight := policy, map[], map[];
      this.positiveTtl, this.negativeTtl := positiveTtl, negativeTtl;
      this.hits, this.misses, this.flights := 0, 0, 0;
    }

    method SetPolicy(p: Address)
      requires Valid()
      modifies this
      ensures Valid() && Abs() == Installed(old(Abs()), p)
      ensures unchanged(`hits, `misses, `flights)
    {
      policy := p;
      cache := map[];
    }

    method Lookup(key: string, now: int) returns (r: Option<Result>)
      requires Valid()
      modifies `hits, `misses
      ensures Valid() && Abs() == old(Abs())
      ensures r == LookedUp(Abs(), key, now)
      ensures r == if key in cache && now <= cache[key].expires then Some(cache[key].result) else None
      ensures hits == old(hits) + (if r.Some? then 1 else 0)
      ensures misses == old(misses) + (if r.Some? then 0 else 1)
    {
      if key !in cache || !Fresh(cache[key], now) {
        misses := misses + 1;
        return None;
      }
      hits := hits + 1;
      return Some(cache[key].result);
    }

    method Start(key: string, now: int) returns (r: Started)
      requires Valid()
      modifies `inflight, `flights
      ensures Valid()
      ensures (Abs(), r) == StartIn(old(Abs()), key, now, old(flights))
      ensures r.Cached? <==> key in cache && now <= cache[key].expires
      ensures flights == old(flights) + (if r.Launched? then 1 else 0)
    {
      if key in cache && Fresh(cache[key], now) {
        return Cached(cache[key].result);
      }
      if key in inflight {
        return Joined(inflight[key]);
      }
      if |inflight| >= MAX_INFLIGHT {
        return TooMany;
      }
      r := Launched(flights);
      inflight := inflight[key := flights];
      flights := flights + 1;
    }

    method Store(key: string, p: Address, r: Result, sweptAt: int, insertedAt: int)
      requires Valid()
      modifies `cache
      ensures Valid()
      ensures Abs() == StoredIn(old(Abs()), key, p, r, sweptAt, insertedAt + (if r.OK() then positiveTtl else negativeTtl))
    {
      if r.code == ProviderDown {
        return;
      }
      var ttl := if r.OK() then positiveTtl else negativeTtl;
      if policy != p {
        return;
      }
      StoreBounded(Abs(), key, p, r, sweptAt, insertedAt + ttl);
      if |cache| >= MAX_CACHE {
        Sweep(sweptAt);
        if |cache| >= MAX_CACHE {
          cache := map[];
        }
      }
      cache := cache[key := Entry(r, insertedAt + ttl)];
    }

    /** Deletes the expired entries, one key at a time in any order. */
    method Sweep(now: int)
      modifies `cache
      ensures cache == Swept(old(cache), now)
    {
      var todo := cache.Keys;
      while todo != {}
        invariant todo <= cache.Keys <= old(cache).Keys
        invariant forall k :: k in cache ==> cache[k] == old(cache)[k]
        invariant forall k :: k in old(cache) && k !in todo ==> (k in cache <==> Fresh(old(cache)[k], now))
        decreases todo
      {
        var k :| k in todo;
        if !Fresh(cache[k], now) {
          cache := cache - {k};
        }
        todo := todo - {k};
      }
    }

    method Finish(key: string)
      requires Valid()
      modifies `inflight
      ensures Valid() && Abs() == RemovedFrom(old(Abs()), key)
    {
      SubsetSize((inflight - {key}).Keys, inflight.Keys);
      assert |inflight - {key}| == |(inflight - {key}).Keys| && |inflight| == |inflight.Keys|;
      inflight := inflight - {key};
    }
  }
}
