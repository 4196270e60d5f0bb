/**
 What holds of the session boundary in every interleaving: SessionRuns with the program's own operations.
 */
module SessionTheorems {
  import opened Text
  import opened Sessions
  import opened SessionRuns

  // ---- What is alive -------------------------------------------------------------------------------

  /** Eight hours old, or half an hour unused. */
  ghost predicate Outworn(x: Session, now: int)
  {
    x.created + 28800000 <= now || x.last + 1800000 <= now
  }

  ghost function LiveKeys(st: Store, now: int): set<Key>
  {
    set k | k in st.sessions && !Outworn(st.sessions[k], now)
  }

  ghost function LiveLogins(st: Store, now: int): set<Key>
  {
    set tx | tx in st.transactions && now < st.transactions[tx].expires
  }

  ghost function LiveTokens(st: Store, now: int): set<string>
  {
    set j | j in st.replays && now < st.replays[j]
  }

  /** The logout token names the session: by identifier, or by subject where it has no identifier; where it has
      both, by both. */
  ghost predicate Names(c: LogoutClaims, x: Session)
  {
    (c.sid.Some? || c.sub.Some?) && (c.sid.Some? ==> x.sid == c.sid) && (c.sub.Some? ==> x.subject == c.sub.value)
  }

  /** A logout token is taken if it is not remembered and there is room to remember it. */
  ghost predicate TakesToken(st: Store, c: LogoutClaims, now: int)
  {
    c.jti !in LiveTokens(st, now) && |LiveTokens(st, now)| < 500
  }

  lemma MapSize<K, V>(m: map<K, V>)
    ensures |m| == |m.Keys|
  {
  }

  lemma LiveAre(st: Store, now: int)
    ensures Cleaned(st, now).sessions.Keys == LiveKeys(st, now) && |Cleaned(st, now).sessions| == |LiveKeys(st, now)|
    ensures Cleaned(st, now).transactions.Keys == LiveLogins(st, now) && |Cleaned(st, now).transactions| == |LiveLogins(st, now)|
    ensures Cleaned(st, now).replays.Keys == LiveTokens(st, now) && |Cleaned(st, now).replays| == |LiveTokens(st, now)|
  {
    var d := Cleaned(st, now);
    assert d.sessions.Keys == LiveKeys(st, now);
    assert d.transactions.Keys == LiveLogins(st, now);
    assert d.replays.Keys == LiveTokens(st, now);
    MapSize(d.sessions);
    MapSize(d.transactions);
    MapSize(d.replays);
  }

  lemma TakesTokenIff(st: Store, c: LogoutClaims, now: int)
    ensures BackChannel(st, c, now).Some? <==> TakesToken(st, c, now)
  {
    LiveAre(st, now);
  }

  lemma NamesIff(c: LogoutClaims, x: Session)
    ensures NamedBy(c, x) <==> Names(c, x)
  {
  }

  lemma OutwornIff(x: Session, now: int)
    ensures Stale(x, now) <==> Outworn(x, now)
  {
  }

  // ---- The program's operations satisfy the laws -----------------------------------------------------

  lemma CleanedShrinks(st: Store, now: int)
    ensures Shrinks(st, Cleaned(st, now)) && StaysWithin(st, Cleaned(st, now))
  {
  }

  lemma EnteredShrinks(st: Store, k: Key, now: int)
    ensures Shrinks(st, Entered(st, k, now)) && StaysWithin(st, Entered(st, k, now))
  {
    CleanedShrinks(st, now);
  }

  lemma LoginIssues(st: Store, tx: Key, state: string, now: int)
    ensures Issues(st, LoginResult(st, tx, state, now), tx) && StaysWithin(st, LoginResult(st, tx, state, now))
  {
    CleanedShrinks(st, now);
  }

  lemma BackChannelShrinks(st: Store, c: LogoutClaims, now: int)
    ensures Shrinks(st, BackChannelResult(st, c, now)) && StaysWithin(st, BackChannelResult(st, c, now))
  {
    CleanedShrinks(st, now);
  }

  lemma CallbackShrinks(st: Store, tx: Key, state: string, ok: bool, now: int)
    ensures Shrinks(Taken(st, tx), CallbackEntered(st, tx, state, ok, now)) && StaysWithin(st, CallbackEntered(st, tx, state, ok, now))
  {
    CleanedShrinks(Taken(st, tx), now);
    SubMap(st.transactions, Taken(st, tx).transactions);
  }

  lemma RealLawful()
    ensures Lawful(Real()) && KeepsWithin(Real())
  {
    var o := Real();
    forall st, tx, state, ok, now
      ensures Shrinks(Taken(st, tx), o.callback(st, tx, state, ok, now)) && StaysWithin(st, o.callback(st, tx, state, ok, now))
    {
      CallbackShrinks(st, tx, state, ok, now);
    }
    forall st, k, now
      ensures Shrinks(st, o.entered(st, k, now)) && StaysWithin(st, o.entered(st, k, now))
    {
      EnteredShrinks(st, k, now);
    }
    forall st, tx, state, now
      ensures Issues(st, o.loggedIn(st, tx, state, now), tx) && StaysWithin(st, o.loggedIn(st, tx, state, now))
    {
      LoginIssues(st, tx, state, now);
    }
    forall st, c, now
      ensures Shrinks(st, o.backChannel(st, c, now)) && StaysWithin(st, o.backChannel(st, c, now))
    {
      BackChannelShrinks(st, c, now);
    }
    forall st, k, now
      ensures o.usable(st, k, now) ==> k in st.sessions
    {
    }
    forall st, tx, state, ok, now
      ensures o.mayExchange(st, tx, state, ok, now) ==> tx in st.transactions
    {
    }
    forall st, sid
      ensures Shrinks(st, o.frontChannel(st, sid)) && StaysWithin(st, o.frontChannel(st, sid))
    {
    }
  }

  lemma InitialInv(now: int)
    ensures Inv(Initial(now))
  {
  }

  // ---- The theorems ------------------------------------------------------------------------------

  /** Both refreshes are under way, and for the same session. */
  ghost predicate UnderWayFor(t: State, g: GrantId, h: GrantId)
  {
    && g in t.grants && h in t.grants && t.grants[g].key == t.grants[h].key
    && !t.grants[g].phase.Forgotten? && !t.grants[h].phase.Forgotten?
  }

  /** In every reachable state at most one refresh is under way for each session, and transactions and
      remembered logout tokens stay within the limit. */
  lemma ReachableStatesAreSound(now: int, acts: seq<Action>, t: State, g: GrantId, h: GrantId)
    requires Run(Real(), Initial(now), acts) == Some(t)
    ensures |t.st.transactions| <= LIMIT && |t.st.replays| <= LIMIT
    ensures UnderWayFor(t, g, h) ==> g == h
  {
    RealLawful();
    InitialInv(now);
    RunKeepsInv(Real(), Initial(now), acts, t);
    assert g in t.grants ==> GrantRegistered(t, g);
    assert h in t.grants ==> GrantRegistered(t, h);
  }

  /** Step a takes session k away: a logout of either channel that ends or names it, an age or idle time past its
      lifetime when one of the cleanups comes by, a request on it after it expired, a refresh that failed, a login
      that replaces it, a reset. */
  ghost predicate Removes(s: State, a: Action, k: Key)
    requires Enabled(s, a) && k in s.st.sessions
  {
    var x := s.st.sessions[k];
    match a
    case EndLogout(c) => s.calls[c].key == k
    case BackChannelLogout(claims) => Outworn(x, s.now) || (TakesToken(s.st, claims, s.now) && Names(claims, x))
    case FrontChannelLogout(sid) => x.sid == Some(sid)
    case Enter(_, key) => Outworn(x, s.now) || (key == k && s.now >= x.expires)
    case StartLogin(_, _) => Outworn(x, s.now)
    case EnterCallback(_, tx, state, requestOk) =>
      Outworn(x, s.now) && requestOk && tx in s.st.transactions && s.now < s.st.transactions[tx].expires && s.st.transactions[tx].state == state
    case FinishCallback(_, _, previous, key) => previous == k && Opens(s, a, key)
    case Catch(g) => s.grants[g].key == k
    case Reset => true
    case _ => false
  }

  /** A session that is there goes in exactly these steps. */
  lemma RemovedIff(s: State, a: Action, k: Key)
    requires StoreRecorded(s) && Enabled(s, a) && k in s.st.sessions
    ensures Revoked(Next(Real(), s, a), k) <==> Removes(s, a, k)
  {
    if a.Enter? {
      EnterIff(s, a, k);
    } else if a.StartLogin? {
      LoginIff(s, a, k);
    } else if a.EnterCallback? {
      CallbackIff(s, a, k);
    } else if a.BackChannelLogout? {
      BackChannelIff(s, a, k);
    } else if a.FrontChannelLogout? {
      FrontChannelIff(s, a, k);
    } else {
      EndedIff(s, a, k);
    }
  }

  lemma EnterIff(s: State, a: Action, k: Key)
    requires StoreRecorded(s) && Enabled(s, a) && k in s.st.sessions && a.Enter?
    ensures Revoked(Next(Real(), s, a), k) <==> Removes(s, a, k)
  {
  }

  lemma LoginIff(s: State, a: Action, k: Key)
    requires StoreRecorded(s) && Enabled(s, a) && k in s.st.sessions && a.StartLogin?
    ensures Revoked(Next(Real(), s, a), k) <==> Removes(s, a, k)
  {
    LoginKeeps(s.st, a.tx, a.state, s.now, k);
    assert Next(Real(), s, a).st == LoginResult(s.st, a.tx, a.state, s.now);
  }

  lemma LoginKeeps(st: Store, tx: Key, state: string, now: int, k: Key)
    requires k in st.sessions
    ensures k in LoginResult(st, tx, state, now).sessions <==> !Outworn(st.sessions[k], now)
  {
  }

  lemma CallbackIff(s: State, a: Action, k: Key)
    requires StoreRecorded(s) && Enabled(s, a) && k in s.st.sessions && a.EnterCallback?
    ensures Revoked(Next(Real(), s, a), k) <==> Removes(s, a, k)
  {
  }

  lemma BackChannelIff(s: State, a: Action, k: Key)
    requires StoreRecorded(s) && Enabled(s, a) && k in s.st.sessions && a.BackChannelLogout?
    ensures Revoked(Next(Real(), s, a), k) <==> Removes(s, a, k)
  {
    BackChannelKeeps(s.st, a.claims, s.now, k);
    assert Next(Real(), s, a) == Put(s, BackChannelResult(s.st, a.claims, s.now));
  }

  lemma BackChannelKeeps(st: Store, c: LogoutClaims, now: int, k: Key)
    requires k in st.sessions
    ensures k in BackChannelResult(st, c, now).sessions <==>
              !Outworn(st.sessions[k], now) && !(TakesToken(st, c, now) && Names(c, st.sessions[k]))
  {
    TakesTokenIff(st, c, now);
    NamesIff(c, st.sessions[k]);
    OutwornIff(st.sessions[k], now);
  }

  lemma FrontChannelIff(s: State, a: Action, k: Key)
    requires StoreRecorded(s) && Enabled(s, a) && k in s.st.sessions && a.FrontChannelLogout?
    ensures Revoked(Next(Real(), s, a), k) <==> Removes(s, a, k)
  {
  }

  lemma EndedIff(s: State, a: Action, k: Key)
    requires StoreRecorded(s) && Enabled(s, a) && k in s.st.sessions
    requires !a.Enter? && !a.StartLogin? && !a.EnterCallback? && !a.BackChannelLogout? && !a.FrontChannelLogout?
    ensures Revoked(Next(Real(), s, a), k) <==> Removes(s, a, k)
  {
  }

  /** A session that was opened and is gone, in any reachable state and however it went, is never there again, no
      request passes on it, and no late refresh changes it, whatever happens next. */
  lemma RemovedForever(now: int, before: seq<Action>, s: State, k: Key, after: seq<Action>)
    requires Run(Real(), Initial(now), before) == Some(s) && Revoked(s, k)
    ensures StaysRevoked(Real(), s, after, k)
  {
    RealLawful();
    InitialInv(now);
    RunKeepsInv(Real(), Initial(now), before, s);
    RevokedRun(Real(), s, after, k);
  }

  /** So each of those steps ends a session for good. */
  lemma RemovalIsForever(now: int, before: seq<Action>, s: State, a: Action, k: Key, after: seq<Action>)
    requires Run(Real(), Initial(now), before) == Some(s) && Enabled(s, a) && k in s.st.sessions && Removes(s, a, k)
    ensures StaysRevoked(Real(), Next(Real(), s, a), after, k)
  {
    RealLawful();
    InitialInv(now);
    RunKeepsInv(Real(), Initial(now), before, s);
    RemovedIff(s, a, k);
    RunAppend(Real(), Initial(now), before, a);
    RemovedForever(now, before + [a], Next(Real(), s, a), k, after);
  }

  // ---- Logout tokens are taken once ----------------------------------------------------------------

  lemma RealRemembers()
    ensures Remembering(Real())
  {
    var o := Real();
    forall st, c, now
      ensures Remembers(st, o.backChannel(st, c, now), now)
    {
      BackChannelRemembers(st, c, now);
    }
    forall st, tx, state, now
      ensures Remembers(st, o.loggedIn(st, tx, state, now), now)
    {
    }
    forall st, tx, state, ok, now
      ensures Remembers(st, o.callback(st, tx, state, ok, now), now)
    {
    }
    forall st, k, now
      ensures Remembers(st, o.entered(st, k, now), now)
    {
    }
    forall st, sid, now
      ensures Remembers(st, o.frontChannel(st, sid), now)
    {
    }
  }

  lemma BackChannelRemembers(st: Store, c: LogoutClaims, now: int)
    ensures Remembers(st, BackChannelResult(st, c, now), now)
  {
  }

  /** A logout token that was taken is not taken again until its memory ends, whatever happens in between, unless the
      boundary is reset. */
  lemma ReplayedLogoutRefused(now: int, before: seq<Action>, s: State, c: LogoutClaims, acts: seq<Action>, t: State, again: LogoutClaims)
    requires Run(Real(), Initial(now), before) == Some(s) && TakesToken(s.st, c, s.now)
    requires Run(Real(), Next(Real(), s, BackChannelLogout(c)), acts) == Some(t) && NoReset(acts)
    requires t.now < s.now + 300000 && again.jti == c.jti
    ensures !TakesToken(t.st, again, t.now)
    ensures forall k :: k in t.st.sessions && !Outworn(t.st.sessions[k], t.now) ==> k in Next(Real(), t, BackChannelLogout(again)).st.sessions
  {
    TakesTokenIff(s.st, c, s.now);
    var m := Next(Real(), s, BackChannelLogout(c));
    assert m.st == BackChannel(s.st, c, s.now).value && m.now == s.now;
    assert c.jti in m.st.replays && m.st.replays[c.jti] == s.now + REPLAY_MEMORY;
    RealRemembers();
    RunRemembers(Real(), m, acts, t, c.jti);
    forall k | k in t.st.sessions && !Outworn(t.st.sessions[k], t.now)
      ensures k in Next(Real(), t, BackChannelLogout(again)).st.sessions
    {
      BackChannelKeeps(t.st, again, t.now, k);
    }
  }

  /** After a reset the token is taken again. */
  lemma ReplayedAfterReset(s: State, c: LogoutClaims)
    ensures TakesToken(Next(Real(), s, Reset).st, c, s.now)
  {
    assert LiveTokens(Cleared(s.st), s.now) == {};
  }

  /** No login begun before a reset opens a session after it. */
  lemma NoLoginFromBeforeAReset(now: int, before: seq<Action>, s: State, acts: seq<Action>, t: State, a: Action)
    requires Run(Real(), Initial(now), before) == Some(s)
    requires Run(Real(), Next(Real(), s, Reset), acts) == Some(t) && Enabled(t, a)
    ensures a.FinishCallback? && a.call in s.calls ==> Next(Real(), t, a).st == t.st
    ensures a.EnterCallback? && a.tx in s.issued ==> Next(Real(), t, a).calls[a.call] == Refused
  {
    RealLawful();
    InitialInv(now);
    RunKeepsInv(Real(), Initial(now), before, s);
    ResetEndsLoginsUnderWay(Real(), s, acts, t, a);
  }

  /** In every interleaving a login transaction starts at most one exchange. */
  lemma LoginTransactionUsedOnce(now: int, before: seq<Action>, s: State, a: Action, acts: seq<Action>, t: State, b: Action)
    requires Run(Real(), Initial(now), before) == Some(s) && Enabled(s, a) && a.EnterCallback? && a.tx in s.issued
    requires Run(Real(), Next(Real(), s, a), acts) == Some(t) && Enabled(t, b) && b.EnterCallback? && b.tx == a.tx
    ensures Next(Real(), t, b).calls[b.call] == Refused
  {
    RealLawful();
    InitialInv(now);
    RunKeepsInv(Real(), Initial(now), before, s);
    TransactionUsedOnce(Real(), s, a, acts, t, b);
  }

  // ---- The session limit is checked too early ------------------------------------------------------

  /** A callback that opens a session stays within the limit exactly when, at that moment, the sessions
      other than the one it replaces are below the limit. */
  lemma FinishWithinLimitIff(s: State, c: nat, session: Session, previous: Key, key: Key)
    requires StoreRecorded(s) && Enabled(s, FinishCallback(c, Some(session), previous, key)) && s.calls[c].generation == s.st.generation
    ensures |Next(Real(), s, FinishCallback(c, Some(session), previous, key)).st.sessions| <= LIMIT
            <==> |s.st.sessions - {previous}| < LIMIT
  {
    assert key !in s.st.sessions - {previous};
  }

  /** A callback is entered only while the sessions and the exchanges under way are below the limit. */
  ghost predicate Throttled(o: Ops, s: State, acts: seq<Action>)
    decreases |acts|
  {
    acts != [] && Enabled(s, acts[0]) ==>
      (acts[0].EnterCallback? ==> Load(s) < LIMIT) && Throttled(o, Next(o, s, acts[0]), acts[1..])
  }

  lemma {:induction false} ThrottledLoad(o: Ops, s: State, acts: seq<Action>, t: State)
    requires Lawful(o) && KeepsWithin(o) && Inv(s) && Load(s) <= LIMIT && Throttled(o, s, acts) && Run(o, s, acts) == Some(t)
    ensures Load(t) <= LIMIT
    decreases |acts|
  {
    if acts != [] {
      NextKeepsInv(o, s, acts[0]);
      NextLoad(o, s, acts[0]);
      ThrottledLoad(o, Next(o, s, acts[0]), acts[1..], t);
    }
  }

  /** With the exchanges under way counted in, the limit would hold in every state. */
  lemma LimitHoldsWhenThrottled(now: int, acts: seq<Action>, t: State)
    requires Run(Real(), Initial(now), acts) == Some(t) && Throttled(Real(), Initial(now), acts)
    ensures |t.st.sessions| <= LIMIT
  {
    RealLawful();
    InitialInv(now);
    assert OpenExchanges(Initial(now)) == {};
    ThrottledLoad(Real(), Initial(now), acts, t);
  }

  ghost predicate NoCallback(acts: seq<Action>)
  {
    forall i :: 0 <= i < |acts| ==> !acts[i].EnterCallback?
  }

  /** Some continuation without further callbacks has more sessions than the limit. */
  ghost predicate CanPassLimit(o: Ops, s: State)
  {
    exists acts :: NoCallback(acts) && Run(o, s, acts).Some? && |Run(o, s, acts).value.st.sessions| > LIMIT
  }

  lemma {:induction false} LoadFalls(o: Ops, s: State, acts: seq<Action>, t: State)
    requires Lawful(o) && KeepsWithin(o) && Inv(s) && NoCallback(acts) && Run(o, s, acts) == Some(t)
    ensures Load(t) <= Load(s)
    decreases |acts|
  {
    if acts != [] {
      NextKeepsInv(o, s, acts[0]);
      NextLoad(o, s, acts[0]);
      LoadFalls(o, Next(o, s, acts[0]), acts[1..], t);
    }
  }

  /** All exchanges under way finish. */
  lemma {:induction false} AllFinish(o: Ops, s: State) returns (acts: seq<Action>, t: State)
    requires Lawful(o) && KeepsWithin(o) && Inv(s)
    ensures NoCallback(acts) && Run(o, s, acts) == Some(t) && |t.st.sessions| == Load(s)
    decreases |OpenExchanges(s)|
  {
    if OpenExchanges(s) == {} {
      acts, t := [], s;
    } else {
      var c :| c in OpenExchanges(s);
      var key := FreshKey(s.objects.Keys);
      var a := FinishCallback(c, Some(Session("user", None, "token", 1, 0, 0)), key, key);
      FinishMoves(o, s, c, key, a);
      NextKeepsInv(o, s, a);
      var rest;
      rest, t := AllFinish(o, Next(o, s, a));
      acts := [a] + rest;
      assert acts[1..] == rest;
    }
  }

  lemma FinishMoves(o: Ops, s: State, c: nat, key: Key, a: Action)
    requires StoreRecorded(s) && c in OpenExchanges(s) && key !in s.objects
    requires a.FinishCallback? && a.call == c && a.session.Some? && a.previous == key && a.key == key
    ensures Enabled(s, a) && Load(Next(o, s, a)) == Load(s) && |OpenExchanges(Next(o, s, a))| < |OpenExchanges(s)|
  {
    var x := a.session.value.(created := s.now, last := s.now);
    assert Next(o, s, a) == AfterFinish(s, c, a.session, key, key);
    FinishedOpens(s, c, a.session.value, key, key);
    OneLarger(s.st.sessions, key, x);
    OpenedLoad(s, Next(o, s, a), c, key);
  }

  lemma OpenedLoad(s: State, t: State, c: nat, key: Key)
    requires c in OpenExchanges(s) && |t.st.sessions| == |s.st.sessions| + 1
    requires t.calls == s.calls[c := LoggedIn(key)] && t.st.generation == s.st.generation
    ensures Load(t) == Load(s) && |OpenExchanges(t)| < |OpenExchanges(s)|
  {
    assert OpenExchanges(t) == OpenExchanges(s) - {c};
  }

  lemma {:induction false} LengthBound(keys: set<Key>) returns (n: nat)
    ensures forall k :: k in keys ==> |k| < n
  {
    if keys == {} {
      n := 0;
    } else {
      var k :| k in keys;
      var m := LengthBound(keys - {k});
      n := if m > |k| then m else |k| + 1;
    }
  }

  lemma FreshKey(keys: set<Key>) returns (k: Key)
    ensures k !in keys
  {
    var n := LengthBound(keys);
    k := Name(n);
  }

  /** In every reachable state: the logins already past the check can take the sessions over the limit exactly if
      the sessions and the exchanges under way are more than the limit together. */
  lemma PassesLimitIff(now: int, before: seq<Action>, s: State)
    requires Run(Real(), Initial(now), before) == Some(s)
    ensures CanPassLimit(Real(), s) <==> Load(s) > LIMIT
  {
    RealLawful();
    InitialInv(now);
    RunKeepsInv(Real(), Initial(now), before, s);
    if CanPassLimit(Real(), s) {
      var acts :| NoCallback(acts) && Run(Real(), s, acts).Some? && |Run(Real(), s, acts).value.st.sessions| > LIMIT;
      LoadFalls(Real(), s, acts, Run(Real(), s, acts).value);
    }
    if Load(s) > LIMIT {
      var acts, t := AllFinish(Real(), s);
      assert |Run(Real(), s, acts).value.st.sessions| > LIMIT;
    }
  }

  /** A key of length n. */
  ghost function Name(n: nat): Key
  {
    seq(n, i => 'k')
  }

  lemma {:induction false} RunAppend(o: Ops, s: State, acts: seq<Action>, a: Action)
    requires Run(o, s, acts).Some? && Enabled(Run(o, s, acts).value, a)
    ensures Run(o, s, acts + [a]) == Some(Next(o, Run(o, s, acts).value, a))
    decreases |acts|
  {
    if acts == [] {
      assert Run(o, Next(o, s, a), []) == Some(Next(o, s, a));
    } else {
      assert (acts + [a])[1..] == acts[1..] + [a];
      RunAppend(o, Next(o, s, acts[0]), acts[1..], a);
    }
  }

  ghost predicate NothingStored(st: Store)
  {
    st.sessions == map[] && st.transactions == map[] && st.replays == map[]
  }

  ghost function WithTransaction(st: Store, tx: Key): Store
  {
    st.(transactions := map[tx := Transaction("", TRANSACTION_LIFETIME)])
  }

  /** While nothing is stored a login can be started, and its callback passes the checks. */
  ghost predicate Admits(o: Ops)
  {
    forall st, tx :: NothingStored(st) ==>
      && o.loggedIn(st, tx, "", 0) == WithTransaction(st, tx)
      && o.mayExchange(WithTransaction(st, tx), tx, "", true, 0) && o.callback(WithTransaction(st, tx), tx, "", true, 0) == st
  }

  lemma RealAdmits()
    ensures Admits(Real())
  {
    var o := Real();
    forall st, tx | NothingStored(st)
      ensures o.loggedIn(st, tx, "", 0) == WithTransaction(st, tx)
      ensures o.mayExchange(WithTransaction(st, tx), tx, "", true, 0) && o.callback(WithTransaction(st, tx), tx, "", true, 0) == st
    {
      RealAdmitsOne(st, tx);
    }
  }

  lemma RealAdmitsOne(st: Store, tx: Key)
    requires NothingStored(st)
    ensures LoginResult(st, tx, "", 0) == WithTransaction(st, tx)
    ensures MayExchange(WithTransaction(st, tx), tx, "", true, 0) && CallbackEntered(WithTransaction(st, tx), tx, "", true, 0) == st
  {
    assert Cleaned(st, 0) == st;
    assert Taken(WithTransaction(st, tx), tx) == st;
  }

  /** n callbacks past the check, none finished. */
  ghost predicate Pending(s: State, n: nat)
  {
    && s.now == 0 && NothingStored(s.st) && s.st.generation == 0 && s.objects == map[]
    && (forall c: nat :: c in s.calls <==> c < n)
    && (forall c: nat :: c < n ==> s.calls[c] == Exchanging(0))
    && (forall tx :: tx in s.issued ==> |tx| < n)
  }

  lemma {:induction false} PendingReachable(o: Ops, n: nat) returns (acts: seq<Action>, s: State)
    requires Admits(o)
    ensures Run(o, Initial(0), acts) == Some(s) && Pending(s, n)
  {
    if n == 0 {
      acts, s := [], Initial(0);
    } else {
      var before, m := PendingReachable(o, n - 1);
      acts, s := OnePending(o, before, m, n - 1);
    }
  }

  lemma OnePending(o: Ops, acts: seq<Action>, s: State, n: nat) returns (acts': seq<Action>, s': State)
    requires Admits(o) && Run(o, Initial(0), acts) == Some(s) && Pending(s, n)
    ensures Run(o, Initial(0), acts') == Some(s') && Pending(s', n + 1)
  {
    var tx := Name(n);
    assert tx !in s.issued;
    var m := Next(o, s, StartLogin(tx, ""));
    PendingSteps(o, s, n, tx);
    RunAppend(o, Initial(0), acts, StartLogin(tx, ""));
    RunAppend(o, Initial(0), acts + [StartLogin(tx, "")], EnterCallback(n, tx, "", true));
    acts', s' := acts + [StartLogin(tx, "")] + [EnterCallback(n, tx, "", true)], Next(o, m, EnterCallback(n, tx, "", true));
  }

  lemma PendingSteps(o: Ops, s: State, n: nat, tx: Key)
    requires Admits(o) && Pending(s, n) && tx !in s.issued && |tx| == n
    ensures Enabled(s, StartLogin(tx, "")) && Enabled(Next(o, s, StartLogin(tx, "")), EnterCallback(n, tx, "", true))
    ensures Pending(Next(o, Next(o, s, StartLogin(tx, "")), EnterCallback(n, tx, "", true)), n + 1)
  {
    var m := Next(o, s, StartLogin(tx, ""));
    assert m.st == WithTransaction(s.st, tx) && m.issued == s.issued + {tx} && m.calls == s.calls && m.objects == map[];
    assert Next(o, m, EnterCallback(n, tx, "", true)) == SetCall(Put(m, s.st), n, Exchanging(0));
  }

  /** The first m of n pending callbacks have opened their sessions. */
  ghost predicate OpenedSome(s: State, m: nat, n: nat)
  {
    && m <= n && s.now == 0 && s.st.generation == 0
    && (forall c: nat :: m <= c < n ==> c in s.calls && s.calls[c] == Exchanging(0))
    && |s.st.sessions| == m && s.st.sessions.Keys <= s.objects.Keys && (forall k :: k in s.objects ==> 0 < |k| <= m)
  }

  lemma {:induction false} OpenedReachable(o: Ops, m: nat, n: nat) returns (acts: seq<Action>, s: State)
    requires Admits(o) && m <= n
    ensures Run(o, Initial(0), acts) == Some(s) && OpenedSome(s, m, n)
  {
    if m == 0 {
      acts, s := PendingReachable(o, n);
    } else {
      var before, p := OpenedReachable(o, m - 1, n);
      var a := FinishCallback(m - 1, Some(Session("user", None, "token", 1, 0, 0)), "", Name(m));
      OneOpened(o, p, m, n, a);
      RunAppend(o, Initial(0), before, a);
      acts, s := before + [a], Next(o, p, a);
    }
  }

  lemma OneOpened(o: Ops, p: State, m: nat, n: nat, a: Action)
    requires 0 < m <= n && OpenedSome(p, m - 1, n)
    requires a.FinishCallback? && a.call == m - 1 && a.session.Some? && a.previous == "" && |a.key| == m
    ensures Enabled(p, a) && OpenedSome(Next(o, p, a), m, n)
  {
    assert a.key !in p.objects;
    assert Next(o, p, a) == AfterFinish(p, m - 1, a.session, "", a.key);
    FinishedOpens(p, m - 1, a.session.value, "", a.key);
    OneMore(p, m, n, a.key, a.session.value.(created := p.now, last := p.now));
  }

  lemma FinishedOpens(p: State, c: nat, s: Session, previous: Key, key: Key)
    requires c in p.calls && p.calls[c] == Exchanging(p.st.generation) && key !in p.objects && previous !in p.st.sessions
    ensures AfterFinish(p, c, Some(s), previous, key)
            == SetCall(Put(p, p.st.(sessions := p.st.sessions[key := s.(created := p.now, last := p.now)])), c, LoggedIn(key))
  {
    assert p.st.sessions - {previous} == p.st.sessions;
  }

  lemma OneMore(p: State, m: nat, n: nat, key: Key, s: Session)
    requires 0 < m <= n && OpenedSome(p, m - 1, n) && |key| == m
    ensures OpenedSome(SetCall(Put(p, p.st.(sessions := p.st.sessions[key := s])), m - 1, LoggedIn(key)), m, n)
  {
    assert key !in p.objects && key !in p.st.sessions;
    OneLarger(p.st.sessions, key, s);
    var q := SetCall(Put(p, p.st.(sessions := p.st.sessions[key := s])), m - 1, LoggedIn(key));
    assert q.objects.Keys == p.objects.Keys + q.st.sessions.Keys;
    OpenedMore(p, q, m, n, key);
  }

  lemma OpenedMore(p: State, q: State, m: nat, n: nat, key: Key)
    requires 0 < m <= n && OpenedSome(p, m - 1, n) && |key| == m && q.now == p.now && q.st.generation == p.st.generation
    requires (forall c :: c in p.calls && c != m - 1 ==> c in q.calls && q.calls[c] == p.calls[c])
    requires |q.st.sessions| == |p.st.sessions| + 1 && q.st.sessions.Keys == p.st.sessions.Keys + {key}
    requires q.objects.Keys == p.objects.Keys + q.st.sessions.Keys
    ensures OpenedSome(q, m, n)
  {
    assert forall k :: k in q.objects ==> k in p.objects || k == key;
  }

  lemma OneLarger(sessions: map<Key, Session>, key: Key, s: Session)
    requires key !in sessions
    ensures |sessions[key := s]| == |sessions| + 1 && sessions[key := s].Keys == sessions.Keys + {key}
  {
    var more := sessions[key := s];
    assert more.Keys == sessions.Keys + {key};
    assert |more| == |more.Keys| && |sessions| == |sessions.Keys|;
  }

  /** The limit of 500 sessions does not hold: it is checked before the tokens are awaited, so any number of
      logins can be past the check at once, and then all of them open a session. */
  lemma ConcurrentLoginsPassTheLimit(n: nat) returns (acts: seq<Action>, s: State)
    ensures Run(Real(), Initial(0), acts) == Some(s) && |s.st.sessions| == n
  {
    RealAdmits();
    acts, s := OpenedReachable(Real(), n, n);
  }
}
