/**
 Every interleaving of the session boundary at its awaits: requests that verify a token and may wait for
 a refresh, refreshes that come back, logins, logouts of all kinds, expiry, reset, and time.
 */
module SessionRuns {
  import opened Text
  import opened Sessions

  /** What the stretches of the program between two awaits do to the store.  The runs below are over any
      functions that satisfy `Lawful`; `Real` is the program's own. */
  datatype Ops = Ops(
    usable: (Store, Key, int) -> bool,
    entered: (Store, Key, int) -> Store,
    loggedIn: (Store, Key, string, int) -> Store,
    mayExchange: (Store, Key, string, bool, int) -> bool,
    callback: (Store, Key, string, bool, int) -> Store,
    backChannel: (Store, LogoutClaims, int) -> Store,
    frontChannel: (Store, string) -> Store)

  /** Transactions and remembered logout tokens are bounded. */
  ghost predicate Within(st: Store)
  {
    |st.transactions| <= LIMIT && |st.replays| <= LIMIT
  }

  /** The store loses sessions and transactions at most, and keeps everything else. */
  ghost predicate Shrinks(st: Store, st': Store)
  {
    && st'.sessions.Keys <= st.sessions.Keys && st'.transactions.Keys <= st.transactions.Keys
    && st'.refreshes == st.refreshes && st'.generation == st.generation
  }

  /** Like Shrinks, but one transaction may have been added. */
  ghost predicate Issues(st: Store, st': Store, tx: Key)
  {
    && st'.sessions.Keys <= st.sessions.Keys && st'.transactions.Keys <= st.transactions.Keys + {tx}
    && st'.refreshes == st.refreshes && st'.generation == st.generation
  }

  ghost predicate StaysWithin(st: Store, st': Store)
  {
    Within(st) ==> Within(st')
  }

  ghost predicate KeepsWithin(o: Ops)
  {
    && (forall st, tx, state, ok, now :: StaysWithin(st, o.callback(st, tx, state, ok, now)))
    && (forall st, k, now :: StaysWithin(st, o.entered(st, k, now)))
    && (forall st, tx, state, now :: StaysWithin(st, o.loggedIn(st, tx, state, now)))
    && (forall st, c, now :: StaysWithin(st, o.backChannel(st, c, now)))
    && (forall st, sid :: StaysWithin(st, o.frontChannel(st, sid)))
  }

  ghost predicate Lawful(o: Ops)
  {
    && (forall st, tx, state, ok, now :: Shrinks(Taken(st, tx), o.callback(st, tx, state, ok, now)))
    && (forall st, k, now :: Shrinks(st, o.entered(st, k, now)))
    && (forall st, k, now :: o.usable(st, k, now) ==> k in st.sessions)
    && (forall st, tx, state, now :: Issues(st, o.loggedIn(st, tx, state, now), tx))
    && (forall st, tx, state, ok, now :: o.mayExchange(st, tx, state, ok, now) ==> tx in st.transactions)
    && (forall st, c, now :: Shrinks(st, o.backChannel(st, c, now)))
    && (forall st, sid :: Shrinks(st, o.frontChannel(st, sid)))
  }

  function LoginResult(st: Store, tx: Key, state: string, now: int): Store
  {
    var r := Sessions.LoggedIn(st, tx, state, now);
    if r.Some? then r.value else Cleaned(st, now)
  }

  function BackChannelResult(st: Store, c: LogoutClaims, now: int): Store
  {
    var r := BackChannel(st, c, now);
    if r.Some? then r.value else Cleaned(st, now)
  }

  /** The operations of the session boundary. */
  function Real(): Ops
  {
    Ops((st, k, now) => Usable(st, k, now),
        (st, k, now) => Entered(st, k, now),
        (st, tx, state, now) => LoginResult(st, tx, state, now),
        (st, tx, state, ok, now) => MayExchange(st, tx, state, ok, now),
        (st, tx, state, ok, now) => CallbackEntered(st, tx, state, ok, now),
        (st, c, now) => BackChannelResult(st, c, now),
        (st, sid) => SignedOutBySid(st, sid))
  }

  /** A refresh is requested; its answer may throw (then the catch removes the session); it is settled; and
      last it is forgotten, which is when its waiters go on. */
  datatype GrantPhase = Requested | Throwing | Settled(ok: bool) | Forgotten(ok: bool)

  datatype Grant = Grant(key: Key, phase: GrantPhase)

  datatype CallPhase =
    | Verifying(key: Key)                  // in `session`, awaiting the token's verification
    | Awaiting(key: Key, grant: GrantId)   // in `session`, awaiting a refresh
    | Passed(key: Key)                     // `session` returned
    | Exchanging(generation: nat)          // in the login callback, awaiting the tokens
    | LoggedIn(key: Key)
    | Refused

  /** `objects` holds every session ever opened as it last was, `issued` every login transaction ever. */
  datatype State = State(
    st: Store,
    now: int,
    objects: map<Key, Session>,
    calls: map<nat, CallPhase>,
    grants: map<GrantId, Grant>,
    issued: set<Key>)

  datatype Action =
    | Enter(call: nat, key: Key)
    | TokenVerified(call: nat, ok: bool, id: GrantId)
    | Resume(call: nat)
    | Arrive(grant: GrantId, answer: Option<Renewed>)
    | Catch(grant: GrantId)
    | Forget(grant: GrantId)
    | StartLogin(tx: Key, state: string)
    | EnterCallback(call: nat, tx: Key, state: string, requestOk: bool)
    | FinishCallback(call: nat, session: Option<Session>, previous: Key, key: Key)
    | EndLogout(call: nat)
    | BackChannelLogout(claims: LogoutClaims)
    | FrontChannelLogout(sid: string)
    | Reset
    | Tick(later: int)

  ghost predicate In(s: State, c: nat)
  {
    c in s.calls
  }

  /** New transaction and session keys are random: they have never been used. */
  ghost predicate Enabled(s: State, a: Action)
  {
    match a
    case Enter(c, _) => c !in s.calls
    case TokenVerified(c, _, id) => In(s, c) && s.calls[c].Verifying? && s.calls[c].key in s.objects && id !in s.grants
    case Resume(c) => In(s, c) && s.calls[c].Awaiting? && s.calls[c].grant in s.grants && s.grants[s.calls[c].grant].phase.Forgotten?
    case Arrive(g, _) => g in s.grants && s.grants[g].phase == Requested
    case Catch(g) => g in s.grants && s.grants[g].phase == Throwing
    case Forget(g) => g in s.grants && s.grants[g].phase.Settled?
    case StartLogin(tx, _) => tx !in s.issued
    case EnterCallback(c, _, _, _) => c !in s.calls
    case FinishCallback(c, _, _, key) => In(s, c) && s.calls[c].Exchanging? && key !in s.objects
    case EndLogout(c) => In(s, c) && s.calls[c].Passed?
    case Tick(later) => s.now <= later
    case _ => true
  }

  /** A state with a new store; live sessions are as the store has them. */
  ghost function Put(s: State, st: Store): State
  {
    s.(st := st, objects := s.objects + st.sessions)
  }

  ghost function SetCall(s: State, c: nat, p: CallPhase): State
  {
    s.(calls := s.calls[c := p])
  }

  ghost function SetGrant(s: State, g: GrantId, p: GrantPhase): State
    requires g in s.grants
  {
    s.(grants := s.grants[g := s.grants[g].(phase := p)])
  }

  /** The last lines of `session`: the key must still be there. */
  ghost function FinalCheck(s: State, c: nat, key: Key): State
  {
    if key in s.st.sessions then
      SetCall(Put(s, Touched(s.st, key, s.now)), c, Passed(key))
    else SetCall(s, c, Refused)
  }

  ghost function AfterVerified(s: State, c: nat, ok: bool, id: GrantId): State
    requires Enabled(s, TokenVerified(c, ok, id))
  {
    var key := s.calls[c].key;
    if !ok then SetCall(s, c, Refused)
    else if s.objects[key].expires - s.now >= REFRESH_AHEAD then FinalCheck(s, c, key)
    else if key in s.st.refreshes then SetCall(s, c, Awaiting(key, s.st.refreshes[key]))
    else
      SetCall(s, c, Awaiting(key, id)).(st := Begun(s.st, key, id), grants := s.grants[id := Grant(key, Requested)])
  }

  ghost function AfterArrive(s: State, g: GrantId, answer: Option<Renewed>): State
    requires g in s.grants
  {
    var key := s.grants[g].key;
    if answer.Some? && key in s.st.sessions
    then SetGrant(Put(s, Refreshed(s.st, key, answer.value)), g, Settled(true))
    else SetGrant(s, g, Throwing)
  }

  ghost function AfterFinish(s: State, c: nat, answer: Option<Session>, previous: Key, key: Key): State
    requires Enabled(s, FinishCallback(c, answer, previous, key))
  {
    if answer.None? || s.calls[c].generation != s.st.generation then SetCall(s, c, Refused)
    else SetCall(Put(s, Opened(s.st, previous, key, answer.value.(created := s.now, last := s.now))), c, LoggedIn(key))
  }

  ghost function Next(o: Ops, s: State, a: Action): State
    requires Enabled(s, a)
  {
    match a
    case Enter(c, key) => SetCall(Put(s, o.entered(s.st, key, s.now)), c, if o.usable(s.st, key, s.now) then Verifying(key) else Refused)
    case TokenVerified(c, ok, id) => AfterVerified(s, c, ok, id)
    case Resume(c) =>
      if s.grants[s.calls[c].grant].phase.ok then FinalCheck(s, c, s.calls[c].key) else SetCall(s, c, Refused)
    case Arrive(g, answer) => AfterArrive(s, g, answer)
    case Catch(g) => SetGrant(Put(s, Without(s.st, s.grants[g].key)), g, Settled(false))
    case Forget(g) =>
      SetGrant(s, g, Forgotten(s.grants[g].phase.ok)).(st := Forgot(s.st, s.grants[g].key))
    case StartLogin(tx, state) =>
      Put(s, o.loggedIn(s.st, tx, state, s.now)).(issued := s.issued + {tx})
    case EnterCallback(c, tx, state, requestOk) =>
      SetCall(Put(s, o.callback(s.st, tx, state, requestOk, s.now)), c,
              if o.mayExchange(s.st, tx, state, requestOk, s.now) then Exchanging(s.st.generation) else Refused)
    case FinishCallback(c, answer, previous, key) => AfterFinish(s, c, answer, previous, key)
    case EndLogout(c) => Put(s, Without(s.st, s.calls[c].key))
    case BackChannelLogout(claims) => Put(s, o.backChannel(s.st, claims, s.now))
    case FrontChannelLogout(sid) => Put(s, o.frontChannel(s.st, sid))
    case Reset => Put(s, Cleared(s.st))
    case Tick(later) => s.(now := later)
  }

  ghost function Run(o: Ops, s: State, acts: seq<Action>): Option<State>
    decreases |acts|
  {
    if acts == [] then Some(s)
    else if Enabled(s, acts[0]) then Run(o, Next(o, s, acts[0]), acts[1..])
    else None
  }

  ghost function Initial(now: int): State
  {
    State(Store(map[], map[], map[], map[], 0), now, map[], map[], map[], {})
  }

  // ---- What a step can do ------------------------------------------------------------------------

  /** Action a opens session k: the end of a login callback of the current generation, under a new key. */
  ghost predicate Opens(s: State, a: Action, k: Key)
  {
    && a.FinishCallback? && a.key == k && a.session.Some? && k !in s.objects
    && a.call in s.calls && s.calls[a.call] == Exchanging(s.st.generation)
  }

  /** Only the end of a login callback opens a session, and what is gone stays as it was. */
  ghost predicate SessionEffect(s: State, a: Action, t: State)
  {
    && (forall k :: k in t.st.sessions ==> k in s.st.sessions || Opens(s, a, k))
    && t.objects == s.objects + t.st.sessions
  }

  ghost predicate LoginEffect(s: State, a: Action, t: State)
  {
    && (forall tx :: tx in t.st.transactions ==> tx in s.st.transactions || (a.StartLogin? && a.tx == tx))
    && t.issued == s.issued + (if a.StartLogin? then {a.tx} else {})
    && t.st.generation == s.st.generation + (if a.Reset? then 1 else 0)
  }

  /** A call changes only by its own steps, and passes only on a session that is there. */
  ghost predicate CallEffect(s: State, a: Action, t: State)
  {
    && s.calls.Keys <= t.calls.Keys
    && (forall c :: c in t.calls && (c !in s.calls || t.calls[c] != s.calls[c]) ==> NewCall(s, a, t, c, t.calls[c]))
  }

  ghost predicate NewCall(s: State, a: Action, t: State, c: nat, p: CallPhase)
  {
    match p
    case Verifying(k) => a == Enter(c, k) && k in s.st.sessions
    case Awaiting(k, g) =>
      a.TokenVerified? && a.call == c && c in s.calls && s.calls[c] == Verifying(k) &&
      (if k in s.st.refreshes then g == s.st.refreshes[k] else g == a.id && g in t.grants && t.grants[g].key == k)
    case Passed(k) => k in s.st.sessions && (a.TokenVerified? || a.Resume?) && a.call == c
    case Exchanging(gen) => a.EnterCallback? && a.call == c && c !in s.calls && gen == s.st.generation && a.tx in s.st.transactions
    case LoggedIn(k) => Opens(s, a, k) && a.call == c
    case Refused => true
  }

  /** A refresh starts only for a session that has none under way, and is forgotten when it is settled. */
  ghost predicate GrantEffect(s: State, a: Action, t: State)
  {
    if a.TokenVerified? && t.grants != s.grants then
      && a.call in s.calls && s.calls[a.call].Verifying? && s.calls[a.call].key !in s.st.refreshes && a.id !in s.grants
      && t.grants == s.grants[a.id := Grant(s.calls[a.call].key, Requested)]
      && t.st.refreshes == s.st.refreshes[s.calls[a.call].key := a.id]
    else if a.Forget? then
      && a.grant in s.grants && t.grants.Keys == s.grants.Keys && t.grants == s.grants[a.grant := t.grants[a.grant]]
      && t.grants[a.grant].key == s.grants[a.grant].key && t.grants[a.grant].phase.Forgotten?
      && t.st.refreshes == s.st.refreshes - {s.grants[a.grant].key} && !s.grants[a.grant].phase.Forgotten?
    else
      t.st.refreshes == s.st.refreshes && t.grants.Keys == s.grants.Keys && forall g :: g in s.grants ==> SameGrant(s.grants[g], t.grants[g])
  }

  ghost predicate SameGrant(g: Grant, h: Grant)
  {
    g.key == h.key && (g.phase.Forgotten? <==> h.phase.Forgotten?)
  }

  ghost predicate StoreRecorded(s: State)
  {
    forall k :: k in s.st.sessions ==> k in s.objects && s.objects[k] == s.st.sessions[k]
  }

  ghost predicate Effects(s: State, a: Action, t: State)
  {
    SessionEffect(s, a, t) && LoginEffect(s, a, t) && CallEffect(s, a, t) && GrantEffect(s, a, t)
  }

  lemma EnterEffects(o: Ops, s: State, a: Action)
    requires Enabled(s, a) && StoreRecorded(s) && a.Enter?
    requires Shrinks(s.st, o.entered(s.st, a.key, s.now)) && (o.usable(s.st, a.key, s.now) ==> a.key in s.st.sessions)
    ensures Effects(s, a, Next(o, s, a))
  {
  }

  lemma StartLoginEffects(o: Ops, s: State, a: Action)
    requires Enabled(s, a) && StoreRecorded(s) && a.StartLogin?
    requires Issues(s.st, o.loggedIn(s.st, a.tx, a.state, s.now), a.tx)
    ensures Effects(s, a, Next(o, s, a))
  {
  }

  lemma EnterCallbackEffects(o: Ops, s: State, a: Action)
    requires Enabled(s, a) && StoreRecorded(s) && a.EnterCallback?
    requires Shrinks(Taken(s.st, a.tx), o.callback(s.st, a.tx, a.state, a.requestOk, s.now)) && (o.mayExchange(s.st, a.tx, a.state, a.requestOk, s.now) ==> a.tx in s.st.transactions)
    ensures Effects(s, a, Next(o, s, a))
  {
  }

  lemma BackChannelLogoutEffects(o: Ops, s: State, a: Action)
    requires Enabled(s, a) && StoreRecorded(s) && a.BackChannelLogout?
    requires Shrinks(s.st, o.backChannel(s.st, a.claims, s.now))
    ensures Effects(s, a, Next(o, s, a))
  {
  }

  lemma FrontChannelLogoutEffects(o: Ops, s: State, a: Action)
    requires Enabled(s, a) && StoreRecorded(s) && a.FrontChannelLogout?
    requires Shrinks(s.st, o.frontChannel(s.st, a.sid))
    ensures Effects(s, a, Next(o, s, a))
  {
  }

  lemma FinalCheckEffects(s: State, a: Action)
    requires (a.TokenVerified? || a.Resume?) && a.call in s.calls && StoreRecorded(s)
    requires s.calls[a.call].Verifying? || s.calls[a.call].Awaiting?
    ensures Effects(s, a, FinalCheck(s, a.call, s.calls[a.call].key))
  {
  }

  lemma TokenVerifiedEffects(o: Ops, s: State, a: Action)
    requires Enabled(s, a) && StoreRecorded(s) && a.TokenVerified?
    ensures Effects(s, a, Next(o, s, a))
  {
    var key := s.calls[a.call].key;
    if a.ok && s.objects[key].expires - s.now >= REFRESH_AHEAD {
      FinalCheckEffects(s, a);
    } else {
      assert Next(o, s, a) == AfterVerified(s, a.call, a.ok, a.id);
    }
  }

  lemma ResumeTickEffects(o: Ops, s: State, a: Action)
    requires Enabled(s, a) && StoreRecorded(s) && (a.Resume? || a.Tick?)
    ensures Effects(s, a, Next(o, s, a))
  {
    if a.Resume? && s.grants[s.calls[a.call].grant].phase.ok {
      FinalCheckEffects(s, a);
    }
  }

  lemma ArriveEffects(o: Ops, s: State, a: Action)
    requires Enabled(s, a) && StoreRecorded(s) && a.Arrive?
    ensures Effects(s, a, Next(o, s, a))
  {
  }

  lemma FinishCallbackEffects(o: Ops, s: State, a: Action)
    requires Enabled(s, a) && StoreRecorded(s) && a.FinishCallback?
    ensures Effects(s, a, Next(o, s, a))
  {
  }

  lemma EndLogoutCatchEffects(o: Ops, s: State, a: Action)
    requires Enabled(s, a) && StoreRecorded(s) && (a.EndLogout? || a.Catch?)
    ensures Effects(s, a, Next(o, s, a))
  {
  }

  lemma ForgetResetEffects(o: Ops, s: State, a: Action)
    requires Enabled(s, a) && StoreRecorded(s) && (a.Forget? || a.Reset?)
    ensures Effects(s, a, Next(o, s, a))
  {
  }

  lemma NextEffects(o: Ops, s: State, a: Action)
    requires Lawful(o) && Enabled(s, a) && StoreRecorded(s)
    ensures Effects(s, a, Next(o, s, a))
  {
    if a.Enter? {
      EnterEffects(o, s, a);
    } else if a.StartLogin? {
      StartLoginEffects(o, s, a);
    } else if a.EnterCallback? {
      EnterCallbackEffects(o, s, a);
    } else if a.BackChannelLogout? {
      BackChannelLogoutEffects(o, s, a);
    } else if a.FrontChannelLogout? {
      FrontChannelLogoutEffects(o, s, a);
    } else if a.TokenVerified? {
      TokenVerifiedEffects(o, s, a);
    } else if a.Resume? || a.Tick? {
      ResumeTickEffects(o, s, a);
    } else if a.Arrive? {
      ArriveEffects(o, s, a);
    } else if a.FinishCallback? {
      FinishCallbackEffects(o, s, a);
    } else if a.EndLogout? || a.Catch? {
      EndLogoutCatchEffects(o, s, a);
    } else {
      ForgetResetEffects(o, s, a);
    }
  }

  lemma NextWithin(o: Ops, s: State, a: Action)
    requires KeepsWithin(o) && Enabled(s, a) && Within(s.st)
    ensures Within(Next(o, s, a).st)
  {
  }

  // ---- The invariant ---------------------------------------------------------------------------

  ghost predicate GrantRegistered(s: State, g: GrantId)
    requires g in s.grants
  {
    !s.grants[g].phase.Forgotten? ==> s.grants[g].key in s.st.refreshes && s.st.refreshes[s.grants[g].key] == g
  }

  ghost predicate RefreshUnderWay(s: State, k: Key)
    requires k in s.st.refreshes
  {
    var g := s.st.refreshes[k];
    g in s.grants && s.grants[g].key == k && !s.grants[g].phase.Forgotten?
  }

  /** The refreshes the store knows are exactly the grants under way. */
  ghost predicate GrantsSound(s: State)
  {
    && (forall g :: g in s.grants ==> GrantRegistered(s, g))
    && (forall k :: k in s.st.refreshes ==> RefreshUnderWay(s, k))
  }

  ghost predicate CallSound(s: State, p: CallPhase)
  {
    match p
    case Verifying(k) => k in s.objects
    case Awaiting(k, g) => k in s.objects && g in s.grants && s.grants[g].key == k
    case Passed(k) => k in s.objects
    case Exchanging(gen) => gen <= s.st.generation
    case _ => true
  }

  ghost predicate CallsSound(s: State)
  {
    forall c :: c in s.calls ==> CallSound(s, s.calls[c])
  }

  ghost predicate Inv(s: State)
  {
    && StoreRecorded(s) && s.st.transactions.Keys <= s.issued && Within(s.st)
    && GrantsSound(s) && CallsSound(s)
  }

  lemma EffectsKeepGrants(s: State, a: Action, t: State)
    requires GrantsSound(s) && GrantEffect(s, a, t)
    ensures GrantsSound(t)
  {
    if a.TokenVerified? && t.grants != s.grants {
      StartedKeepsGrants(s, t, s.calls[a.call].key, a.id);
    } else if a.Forget? {
      assert GrantRegistered(s, a.grant);
      assert forall g :: g in s.grants ==> GrantRegistered(s, g);
      assert forall k :: k in t.st.refreshes ==> RefreshUnderWay(s, k);
    } else {
      assert forall g :: g in s.grants ==> GrantRegistered(s, g) && SameGrant(s.grants[g], t.grants[g]);
      assert forall k :: k in s.st.refreshes ==> RefreshUnderWay(s, k);
    }
  }

  lemma StartedKeepsGrants(s: State, t: State, key: Key, id: GrantId)
    requires GrantsSound(s) && key !in s.st.refreshes && id !in s.grants
    requires t.grants == s.grants[id := Grant(key, Requested)] && t.st.refreshes == s.st.refreshes[key := id]
    ensures GrantsSound(t)
  {
    assert forall g :: g in s.grants ==> GrantRegistered(s, g);
    assert forall k :: k in s.st.refreshes ==> RefreshUnderWay(s, k);
  }

  /** Sessions ever opened, grants and the generation only grow. */
  ghost predicate Grows(s: State, t: State)
  {
    && s.objects.Keys <= t.objects.Keys && s.st.generation <= t.st.generation
    && s.grants.Keys <= t.grants.Keys && forall g :: g in s.grants ==> t.grants[g].key == s.grants[g].key
  }

  lemma EffectsGrow(s: State, a: Action, t: State)
    requires Effects(s, a, t)
    ensures Grows(s, t)
  {
    if !(a.TokenVerified? && t.grants != s.grants) && !a.Forget? {
      assert forall g :: g in s.grants ==> SameGrant(s.grants[g], t.grants[g]);
    }
  }

  lemma EffectsKeepCalls(s: State, a: Action, t: State)
    requires CallsSound(s) && StoreRecorded(s) && GrantsSound(s) && Effects(s, a, t)
    ensures CallsSound(t)
  {
    EffectsGrow(s, a, t);
    forall c | c in t.calls
      ensures CallSound(t, t.calls[c])
    {
      if c in s.calls && t.calls[c] == s.calls[c] {
        assert CallSound(s, s.calls[c]);
      } else {
        NewCallSound(s, a, t, c);
      }
    }
  }

  lemma NewCallSound(s: State, a: Action, t: State, c: nat)
    requires CallsSound(s) && StoreRecorded(s) && GrantsSound(s) && Grows(s, t)
    requires GrantEffect(s, a, t) && SessionEffect(s, a, t) && c in t.calls && NewCall(s, a, t, c, t.calls[c])
    ensures CallSound(t, t.calls[c])
  {
    assert c in s.calls ==> CallSound(s, s.calls[c]);
    if t.calls[c].Awaiting? && t.calls[c].key in s.st.refreshes {
      assert RefreshUnderWay(s, t.calls[c].key);
    }
  }

  lemma NextKeepsInv(o: Ops, s: State, a: Action)
    requires Lawful(o) && KeepsWithin(o) && Inv(s) && Enabled(s, a)
    ensures Inv(Next(o, s, a))
  {
    NextEffects(o, s, a);
    NextWithin(o, s, a);
    EffectsKeepInv(s, a, Next(o, s, a));
  }

  lemma EffectsKeepInv(s: State, a: Action, t: State)
    requires Inv(s) && Effects(s, a, t) && Within(t.st)
    ensures Inv(t)
  {
    EffectsKeepGrants(s, a, t);
    EffectsKeepCalls(s, a, t);
  }

  lemma {:induction false} RunKeepsInv(o: Ops, s: State, acts: seq<Action>, t: State)
    requires Lawful(o) && KeepsWithin(o) && Inv(s) && Run(o, s, acts) == Some(t)
    ensures Inv(t)
    decreases |acts|
  {
    if acts == [] {
    } else {
      NextKeepsInv(o, s, acts[0]);
      RunKeepsInv(o, Next(o, s, acts[0]), acts[1..], t);
    }
  }

  // ---- A removed session stays removed -------------------------------------------------------------

  /** The session was opened and is no longer there. */
  ghost predicate Revoked(s: State, k: Key)
  {
    k in s.objects && k !in s.st.sessions
  }

  /** Between s and t a request passes on session k. */
  ghost predicate PassesOn(s: State, t: State, k: Key)
  {
    exists c :: c in t.calls && t.calls[c] == Passed(k) && !(c in s.calls && s.calls[c] == Passed(k))
  }

  lemma RevokedStays(s: State, a: Action, t: State, k: Key)
    requires Revoked(s, k) && SessionEffect(s, a, t) && CallEffect(s, a, t)
    ensures Revoked(t, k) && t.objects[k] == s.objects[k] && !PassesOn(s, t, k)
  {
  }

  /** From a state with a revoked session, in every step of the run: it is not there, no request passes on
      it, and nothing (no refresh that comes back late) changes its tokens. */
  ghost predicate StaysRevoked(o: Ops, s: State, acts: seq<Action>, k: Key)
    decreases |acts|
  {
    && Revoked(s, k)
    && (acts != [] && Enabled(s, acts[0]) ==>
          var t := Next(o, s, acts[0]);
          StaysRevoked(o, t, acts[1..], k) && t.objects[k] == s.objects[k] && !PassesOn(s, t, k))
  }

  lemma {:induction false} RevokedRun(o: Ops, s: State, acts: seq<Action>, k: Key)
    requires Lawful(o) && KeepsWithin(o) && Inv(s) && Revoked(s, k)
    ensures StaysRevoked(o, s, acts, k)
    decreases |acts|
  {
    if acts != [] && Enabled(s, acts[0]) {
      NextKeepsInv(o, s, acts[0]);
      NextEffects(o, s, acts[0]);
      RevokedStays(s, acts[0], Next(o, s, acts[0]), k);
      RevokedRun(o, Next(o, s, acts[0]), acts[1..], k);
    }
  }

  // ---- No login from before a reset --------------------------------------------------------------

  /** A call that is no login callback of the current generation. */
  ghost predicate Outdated(s: State, c: nat)
  {
    c in s.calls && (s.calls[c].Exchanging? ==> s.calls[c].generation < s.st.generation)
  }

  /** A login transaction that can no longer be used. */
  ghost predicate Spent(s: State, tx: Key)
  {
    tx in s.issued && tx !in s.st.transactions
  }

  lemma OutdatedStays(s: State, a: Action, t: State, c: nat)
    requires SessionEffect(s, a, t) && LoginEffect(s, a, t) && CallEffect(s, a, t) && Outdated(s, c)
    ensures Outdated(t, c)
  {
  }

  lemma SpentStays(s: State, a: Action, t: State, tx: Key)
    requires LoginEffect(s, a, t) && Spent(s, tx) && (a.StartLogin? ==> a.tx !in s.issued)
    ensures Spent(t, tx)
  {
  }

  lemma {:induction false} LoginsStayEnded(o: Ops, s: State, acts: seq<Action>, t: State, c: nat, tx: Key)
    requires Lawful(o) && KeepsWithin(o) && Inv(s) && Run(o, s, acts) == Some(t)
    ensures Outdated(s, c) ==> Outdated(t, c)
    ensures Spent(s, tx) ==> Spent(t, tx)
    decreases |acts|
  {
    if acts == [] {
    } else {
      var m := Next(o, s, acts[0]);
      NextKeepsInv(o, s, acts[0]);
      NextEffects(o, s, acts[0]);
      if Outdated(s, c) {
        OutdatedStays(s, acts[0], m, c);
      }
      if Spent(s, tx) {
        SpentStays(s, acts[0], m, tx);
      }
      LoginsStayEnded(o, m, acts[1..], t, c, tx);
    }
  }

  lemma ResetOutdates(o: Ops, s: State, c: nat, tx: Key)
    requires CallsSound(s)
    ensures c in s.calls ==> Outdated(Next(o, s, Reset), c)
    ensures tx in s.issued ==> Spent(Next(o, s, Reset), tx)
  {
    var t := Next(o, s, Reset);
    assert t == Put(s, Cleared(s.st));
    if c in s.calls {
      assert CallSound(s, s.calls[c]);
      assert Outdated(t, c);
    }
    assert tx in s.issued ==> Spent(t, tx);
  }

  /** A transaction starts at most one exchange: after its callback it is used up for good. */
  lemma TransactionUsedOnce(o: Ops, s: State, a: Action, acts: seq<Action>, t: State, b: Action)
    requires Lawful(o) && KeepsWithin(o) && Inv(s) && Enabled(s, a) && a.EnterCallback? && a.tx in s.issued
    requires Run(o, Next(o, s, a), acts) == Some(t) && Enabled(t, b) && b.EnterCallback? && b.tx == a.tx
    ensures Next(o, t, b).calls[b.call] == Refused
  {
    NextKeepsInv(o, s, a);
    assert Shrinks(Taken(s.st, a.tx), o.callback(s.st, a.tx, a.state, a.requestOk, s.now));
    assert Spent(Next(o, s, a), a.tx);
    LoginsStayEnded(o, Next(o, s, a), acts, t, 0, a.tx);
  }

  /** After a reset, whatever happens in between: the end of a callback that began before it opens no
      session, and a transaction issued before it starts no callback. */
  lemma ResetEndsLoginsUnderWay(o: Ops, s: State, acts: seq<Action>, t: State, a: Action)
    requires Lawful(o) && KeepsWithin(o) && Inv(s) && Run(o, Next(o, s, Reset), acts) == Some(t) && Enabled(t, a)
    ensures a.FinishCallback? && a.call in s.calls ==> Next(o, t, a).st == t.st
    ensures a.EnterCallback? && a.tx in s.issued ==> Next(o, t, a).calls[a.call] == Refused
  {
    NextKeepsInv(o, s, Reset);
    if a.FinishCallback? && a.call in s.calls {
      ResetOutdates(o, s, a.call, "");
      LoginsStayEnded(o, Next(o, s, Reset), acts, t, a.call, "");
    }
    if a.EnterCallback? && a.tx in s.issued {
      ResetOutdates(o, s, 0, a.tx);
      LoginsStayEnded(o, Next(o, s, Reset), acts, t, 0, a.tx);
    }
  }

  // ---- Remembered logout tokens --------------------------------------------------------------------

  /** A token that is remembered past now stays remembered as long. */
  ghost predicate Remembers(st: Store, st': Store, now: int)
  {
    forall j :: j in st.replays && st.replays[j] > now ==> j in st'.replays && st'.replays[j] == st.replays[j]
  }

  ghost predicate Remembering(o: Ops)
  {
    && (forall st, tx, state, ok, now :: Remembers(st, o.callback(st, tx, state, ok, now), now))
    && (forall st, k, now :: Remembers(st, o.entered(st, k, now), now))
    && (forall st, tx, state, now :: Remembers(st, o.loggedIn(st, tx, state, now), now))
    && (forall st, c, now :: Remembers(st, o.backChannel(st, c, now), now))
    && (forall st, sid, now {:trigger Remembers(st, o.frontChannel(st, sid), now)} :: Remembers(st, o.frontChannel(st, sid), now))
  }

  lemma NextRemembers(o: Ops, s: State, a: Action)
    requires Remembering(o) && Enabled(s, a) && !a.Reset?
    ensures Remembers(s.st, Next(o, s, a).st, s.now) && s.now <= Next(o, s, a).now
  {
    if a.FrontChannelLogout? {
      assert Remembers(s.st, o.frontChannel(s.st, a.sid), s.now);
    }
  }

  ghost predicate NoReset(acts: seq<Action>)
  {
    forall i :: 0 <= i < |acts| ==> !acts[i].Reset?
  }

  lemma {:induction false} TimeGoesOn(o: Ops, s: State, acts: seq<Action>, t: State)
    requires Run(o, s, acts) == Some(t)
    ensures s.now <= t.now
    decreases |acts|
  {
    if acts != [] {
      TimeGoesOn(o, Next(o, s, acts[0]), acts[1..], t);
    }
  }

  /** Without a reset a token is remembered until its memory ends. */
  lemma {:induction false} RunRemembers(o: Ops, s: State, acts: seq<Action>, t: State, jti: string)
    requires Remembering(o) && Run(o, s, acts) == Some(t) && NoReset(acts)
    requires jti in s.st.replays && t.now < s.st.replays[jti]
    ensures jti in t.st.replays && t.st.replays[jti] == s.st.replays[jti]
    decreases |acts|
  {
    if acts != [] {
      TimeGoesOn(o, s, acts, t);
      NextRemembers(o, s, acts[0]);
      RunRemembers(o, Next(o, s, acts[0]), acts[1..], t, jti);
    }
  }

  // ---- Sessions and exchanges under way ------------------------------------------------------------

  /** The login callbacks past the check that can still open a session. */
  ghost function OpenExchanges(s: State): set<nat>
  {
    set c | c in s.calls && s.calls[c] == Exchanging(s.st.generation)
  }

  ghost function Load(s: State): nat
  {
    |s.st.sessions| + |OpenExchanges(s)|
  }

  /** Only a callback that is entered adds to the sessions and exchanges, and it adds one. */
  lemma NextLoad(o: Ops, s: State, a: Action)
    requires Lawful(o) && Inv(s) && Enabled(s, a)
    ensures Load(Next(o, s, a)) <= Load(s) + if a.EnterCallback? then 1 else 0
  {
    var t := Next(o, s, a);
    NextEffects(o, s, a);
    if a.Reset? {
      ResetLoad(s, t);
    } else if a.FinishCallback? {
      FinishLoad(s, a.call, a.session, a.previous, a.key);
    } else {
      OtherLoad(s, a, t);
    }
  }

  lemma ResetLoad(s: State, t: State)
    requires CallsSound(s) && t == Put(s, Cleared(s.st))
    ensures Load(t) == 0
  {
    assert forall c :: c in s.calls ==> CallSound(s, s.calls[c]);
    assert OpenExchanges(t) == {};
  }

  lemma OtherLoad(s: State, a: Action, t: State)
    requires SessionEffect(s, a, t) && LoginEffect(s, a, t) && CallEffect(s, a, t) && !a.FinishCallback? && !a.Reset?
    ensures Load(t) <= Load(s) + if a.EnterCallback? then 1 else 0
  {
    SubMap(s.st.sessions, t.st.sessions);
    var more := OpenExchanges(s) + if a.EnterCallback? then {a.call} else {};
    forall c | c in OpenExchanges(t)
      ensures c in more
    {
      if c !in s.calls || t.calls[c] != s.calls[c] {
        assert NewCall(s, a, t, c, t.calls[c]);
      }
    }
    SubSet(OpenExchanges(t), more);
  }

  lemma FinishLoad(s: State, c: nat, answer: Option<Session>, previous: Key, key: Key)
    requires Enabled(s, FinishCallback(c, answer, previous, key)) && StoreRecorded(s)
    ensures Load(AfterFinish(s, c, answer, previous, key)) <= Load(s)
  {
    var t := AfterFinish(s, c, answer, previous, key);
    SubSet(OpenExchanges(t), OpenExchanges(s) - {c});
    if answer.Some? && s.calls[c].generation == s.st.generation {
      assert c in OpenExchanges(s);
      assert t.st.sessions.Keys <= s.st.sessions.Keys + {key};
      SubSet(t.st.sessions.Keys, s.st.sessions.Keys + {key});
      assert |t.st.sessions| == |t.st.sessions.Keys| && |s.st.sessions| == |s.st.sessions.Keys|;
    }
  }
}
