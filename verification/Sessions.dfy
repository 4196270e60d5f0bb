/**
 The session boundary of the user interface: the Maps that hold logged-in sessions, login transactions,
 remembered logout tokens and refreshes under way.  Every method here is one stretch of the program
 between two awaits, so it runs without interruption; SessionRuns interleaves them.
 */
module Sessions {
  import opened Text

  type Key = string
  type GrantId = nat

  const LIMIT := 500
  const SESSION_LIFETIME := 8 * 3600000
  const IDLE_LIFETIME := 30 * 60000
  const TRANSACTION_LIFETIME := 300000
  const REPLAY_MEMORY := 300000
  const ENDED_MEMORY := 300000
  const REFRESH_AHEAD := 60000

  datatype Session = Session(subject: string, sid: Option<string>, refresh: string, expires: int, created: int, last: int)

  datatype Transaction = Transaction(state: string, expires: int)

  /** What a verified logout token names. */
  datatype LogoutClaims = LogoutClaims(jti: string, sid: Option<string>, sub: Option<string>)

  datatype Store = Store(
    sessions: map<Key, Session>,
    transactions: map<Key, Transaction>,
    replays: map<string, int>,
    refreshes: map<Key, GrantId>,
    generation: nat)

  predicate Stale(s: Session, now: int)
  {
    now - s.created >= SESSION_LIFETIME || now - s.last >= IDLE_LIFETIME
  }

  /** `cleanup` without the remembered ends of sessions. */
  function Cleaned(st: Store, now: int): Store
  {
    st.(sessions := LiveSessions(st.sessions, now), transactions := LiveTransactions(st.transactions, now), replays := Remembered(st.replays, now))
  }

  function LiveSessions(m: map<Key, Session>, now: int): map<Key, Session>
  {
    map k | k in m && !Stale(m[k], now) :: m[k]
  }

  function LiveTransactions(m: map<Key, Transaction>, now: int): (r: map<Key, Transaction>)
    ensures |r| <= |m|
  {
    var r := map k | k in m && m[k].expires > now :: m[k];
    SubMap(m, r);
    r
  }

  function Remembered(m: map<string, int>, now: int): (r: map<string, int>)
    ensures |r| <= |m|
  {
    var r := map k | k in m && m[k] > now :: m[k];
    SubMap(m, r);
    r
  }

  function Cleared(st: Store): Store
  {
    Store(map[], map[], map[], st.refreshes, st.generation + 1)
  }

  function Without(st: Store, key: Key): Store
  {
    st.(sessions := st.sessions - {key})
  }

  /** A session key that a request may go on with: still there after the cleanup and not expired. */
  predicate Usable(st: Store, key: Key, now: int)
  {
    key in Cleaned(st, now).sessions && now < Cleaned(st, now).sessions[key].expires
  }

  /** The synchronous start of `session`. */
  function Entered(st: Store, key: Key, now: int): Store
  {
    if Usable(st, key, now) then Cleaned(st, now) else Without(Cleaned(st, now), key)
  }

  /** The synchronous part of `login`: None when too many logins are under way. */
  function LoggedIn(st: Store, tx: Key, state: string, now: int): Option<Store>
  {
    var c := Cleaned(st, now);
    if |c.transactions| >= LIMIT then None
    else Some(c.(transactions := c.transactions[tx := Transaction(state, now + TRANSACTION_LIFETIME)]))
  }

  /** The synchronous start of the login callback takes its transaction out. */
  function Taken(st: Store, tx: Key): Store
  {
    st.(transactions := st.transactions - {tx})
  }

  /** The transaction is there, alive and of the request's state, and the request is well-formed. */
  predicate TransactionOk(st: Store, tx: Key, state: string, requestOk: bool, now: int)
  {
    requestOk && tx in st.transactions && now < st.transactions[tx].expires && st.transactions[tx].state == state
  }

  /** The callback goes on only with a good transaction and below the session limit. */
  predicate MayExchange(st: Store, tx: Key, state: string, requestOk: bool, now: int)
  {
    TransactionOk(st, tx, state, requestOk, now) && |Cleaned(Taken(st, tx), now).sessions| < LIMIT
  }

  /** The store after the callback's synchronous start: the transaction is used up in any case. */
  function CallbackEntered(st: Store, tx: Key, state: string, requestOk: bool, now: int): Store
  {
    if TransactionOk(st, tx, state, requestOk, now) then Cleaned(Taken(st, tx), now) else Taken(st, tx)
  }

  /** The synchronous end of the callback: the browser's old session makes way for the new one. */
  function Opened(st: Store, previous: Key, key: Key, s: Session): Store
  {
    st.(sessions := (st.sessions - {previous})[key := s])
  }

  predicate NamedBy(c: LogoutClaims, s: Session)
  {
    if c.sid.Some? then s.sid == c.sid && (c.sub.None? || Some(s.subject) == c.sub) else Some(s.subject) == c.sub
  }

  function SignedOut(st: Store, c: LogoutClaims): Store
  {
    st.(sessions := map k | k in st.sessions && !NamedBy(c, st.sessions[k]) :: st.sessions[k])
  }

  function SignedOutBySid(st: Store, sid: string): Store
  {
    st.(sessions := map k | k in st.sessions && st.sessions[k].sid != Some(sid) :: st.sessions[k])
  }

  /** A back-channel logout: refused (None) for a remembered token or when too many are remembered. */
  function BackChannel(st: Store, c: LogoutClaims, now: int): Option<Store>
  {
    var d := Cleaned(st, now);
    if c.jti in d.replays || |d.replays| >= LIMIT then None
    else Some(SignedOut(d.(replays := d.replays[c.jti := now + REPLAY_MEMORY]), c))
  }

  /** What a successful refresh writes into the session object; a session identifier it has must be the same. */
  datatype Renewed = Renewed(refresh: string, expires: int, sid: Option<string>)

  function Renew(s: Session, r: Renewed): Session
  {
    s.(refresh := r.refresh, expires := r.expires, sid := if s.sid.Some? then s.sid else r.sid)
  }

  /** A refresh that comes back writes only into a session that is still there. */
  function Refreshed(st: Store, key: Key, r: Renewed): Store
  {
    if key in st.sessions then st.(sessions := st.sessions[key := Renew(st.sessions[key], r)]) else st
  }

  /** The end of `session`: a request passes on a session that is still there, and that is its last use. */
  function Touched(st: Store, key: Key, now: int): Store
  {
    if key in st.sessions then st.(sessions := st.sessions[key := st.sessions[key].(last := now)]) else st
  }

  /** A refresh is registered for a session that has none under way. */
  function Begun(st: Store, key: Key, id: GrantId): Store
  {
    if key in st.refreshes then st else st.(refreshes := st.refreshes[key := id])
  }

  function Forgot(st: Store, key: Key): Store
  {
    st.(refreshes := st.refreshes - {key})
  }

  // ---- Remembered ends of sessions -------------------------------------------------------------------

  function StaleKeys(sessions: map<Key, Session>, now: int): set<Key>
  {
    set k | k in sessions && Stale(sessions[k], now)
  }

  /** The end remembered for k when the given sessions end now. */
  function EndOf(ended: map<Key, int>, keys: set<Key>, now: int, k: Key): Option<int>
  {
    if k in keys then Some(now + 300000) else if k in ended then Some(ended[k]) else None
  }

  /** Each end is one of those, and with room for all of them all are there. */
  ghost predicate Ends(ends: map<Key, int>, was: map<Key, int>, keys: set<Key>, now: int, room: bool)
  {
    && (forall k :: k in ends ==> EndOf(was, keys, now, k) == Some(ends[k]))
    && (room ==> forall k :: EndOf(was, keys, now, k).Some? ==> k in ends)
  }

  /** One end more, and one other less if there was no room. */
  ghost predicate Marked(ends: map<Key, int>, ends': map<Key, int>, k: Key, now: int)
  {
    if |ends| < 500 then ends' == ends[k := now + 300000]
    else exists lost :: lost in ends && ends' == (ends - {lost})[k := now + 300000]
  }

  lemma EndsStep(ends: map<Key, int>, ends': map<Key, int>, was: map<Key, int>, keys: set<Key>, k: Key, now: int, room: bool)
    requires Ends(ends, was, keys, now, room) && Marked(ends, ends', k, now) && (room ==> |ends| < LIMIT)
    ensures Ends(ends', was, keys + {k}, now, room)
  {
  }

  lemma EndsSize(ends: map<Key, int>, was: map<Key, int>, keys: set<Key>, now: int, room: bool)
    requires Ends(ends, was, keys, now, room)
    ensures |ends| <= |was| + |keys|
  {
    forall k | k in ends
      ensures k in was.Keys + keys
    {
      assert EndOf(was, keys, now, k).Some?;
    }
    SubSet(ends.Keys, was.Keys + keys);
    assert |ends| == |ends.Keys| && |was| == |was.Keys|;
  }

  lemma SubSet<T>(a: set<T>, b: set<T>)
    requires a <= b
    ensures |a| <= |b|
  {
    assert b == a + (b - a);
  }

  lemma SmallerSet(part: set<Key>, all: set<Key>, k: Key)
    requires part <= all && k in all && k !in part
    ensures |part| < |all|
  {
    assert all == part + (all - part) && k in all - part;
    assert |all| == |part| + |all - part|;
  }

  class UIAuth {
    var sessions: map<Key, Session>
    var ended: map<Key, int>
    var transactions: map<Key, Transaction>
    var replays: map<string, int>
    var refreshes: map<Key, GrantId>
    var generation: nat

    ghost function Abs(): Store
      reads this
    {
      Store(sessions, transactions, replays, refreshes, generation)
    }

    /** The remembered ends, login transactions and logout tokens are bounded; the sessions are not (see
        SessionTheorems.ConcurrentLoginsPassTheLimit). */
    ghost predicate Valid()
      reads this
    {
      |ended| <= LIMIT && |transactions| <= LIMIT && |replays| <= LIMIT
    }

    constructor ()
      ensures Valid() && Abs() == Store(map[], map[], map[], map[], 0)
    {
      sessions, ended, transactions, replays, refreshes, generation := map[], map[], map[], map[], map[], 0;
    }

    method Reset()
      requires Valid()
      modifies this
      ensures Valid() && Abs() == Cleared(old(Abs()))
    {
      generation := generation + 1;
      sessions, ended, transactions, replays := map[], map[], map[], map[];
    }

    /** Remembers that the session ended; a full memory loses one other end for it, and only then. */
    method MarkExpired(key: Key, now: int)
      requires Valid()
      modifies `ended
      ensures Valid() && key in ended && ended[key] == now + 300000
      ensures Marked(old(ended), ended, key, now)
    {
      if |ended| >= LIMIT {
        var first :| first in ended;
        Smaller(ended, first);
        ended := ended - {first};
      }
      ended := ended[key := now + ENDED_MEMORY];
    }

    /** Drops what has expired from all four Maps; an expired session is remembered as ended. */
    method Cleanup(now: int)
      requires Valid()
      modifies `sessions, `ended, `transactions, `replays
      ensures Valid() && Abs() == Cleaned(old(Abs()), now)
      ensures Ends(ended, Remembered(old(ended), now), StaleKeys(old(sessions), now), now,
                   |Remembered(old(ended), now)| + |StaleKeys(old(sessions), now)| <= LIMIT)
    {
      transactions := LiveTransactions(transactions, now);
      replays := Remembered(replays, now);
      ended := Remembered(ended, now);
      CleanSessions(now);
    }

    method CleanSessions(now: int)
      requires Valid()
      modifies `sessions, `ended
      ensures Valid() && sessions == LiveSessions(old(sessions), now)
      ensures Ends(ended, old(ended), StaleKeys(old(sessions), now), now, |old(ended)| + |StaleKeys(old(sessions), now)| <= LIMIT)
    {
      var todo := sessions.Keys;
      ghost var was, stale, done: set<Key> := ended, StaleKeys(sessions, now), {};
      ghost var room := |was| + |stale| <= LIMIT;
      while todo != {}
        invariant Valid() && todo <= sessions.Keys <= old(sessions).Keys
        invariant forall k :: k in sessions ==> sessions[k] == old(sessions)[k]
        invariant forall k :: k in old(sessions) && k !in todo ==> (k in sessions <==> !Stale(old(sessions)[k], now))
        invariant done <= stale && (forall k :: k in stale <==> k in done || (k in todo && k in stale)) && done !! todo
        invariant Ends(ended, was, done, now, room)
        decreases todo
      {
        var k :| k in todo;
        if Stale(sessions[k], now) {
          sessions := sessions - {k};
          Expire(k, now, was, done, stale);
          done := done + {k};
        }
        todo := todo - {k};
      }
      assert done == stale;
    }

    method Expire(k: Key, now: int, ghost was: map<Key, int>, ghost done: set<Key>, ghost all: set<Key>)
      requires Valid() && done <= all && k in all && k !in done
      requires Ends(ended, was, done, now, |was| + |all| <= LIMIT)
      modifies `ended
      ensures Valid() && Ends(ended, was, done + {k}, now, |was| + |all| <= LIMIT)
    {
      EndsSize(ended, was, done, now, |was| + |all| <= LIMIT);
      SmallerSet(done, all, k);
      ghost var before := ended;
      MarkExpired(k, now);
      EndsStep(before, ended, was, done, k, now, |was| + |all| <= LIMIT);
    }

    /** The start of `session`, up to its first await: None refuses the request. */
    method EnterSession(key: Key, now: int) returns (s: Option<Session>)
      requires Valid()
      modifies `sessions, `ended, `transactions, `replays
      ensures Valid() && Abs() == Entered(old(Abs()), key, now)
      ensures s.Some? <==> Usable(old(Abs()), key, now)
      ensures s.Some? ==> key in sessions && s.value == sessions[key]
    {
      Cleanup(now);
      if key !in sessions {
        assert sessions - {key} == sessions;
        return None;
      }
      if now >= sessions[key].expires {
        sessions := sessions - {key};
        MarkExpired(key, now);
        return None;
      }
      return Some(sessions[key]);
    }

    method Login(tx: Key, state: string, now: int) returns (ok: bool)
      requires Valid()
      modifies `sessions, `ended, `transactions, `replays
      ensures Valid()
      ensures ok <==> LoggedIn(old(Abs()), tx, state, now).Some?
      ensures Abs() == if ok then LoggedIn(old(Abs()), tx, state, now).value else Cleaned(old(Abs()), now)
    {
      Cleanup(now);
      if |transactions| >= LIMIT {
        return false;
      }
      transactions := transactions[tx := Transaction(state, now + TRANSACTION_LIFETIME)];
      return true;
    }

    /** The start of the login callback, up to its first await. */
    method EnterCallback(tx: Key, state: string, requestOk: bool, now: int) returns (ok: bool)
      requires Valid()
      modifies `sessions, `ended, `transactions, `replays
      ensures Valid()
      ensures ok <==> MayExchange(old(Abs()), tx, state, requestOk, now)
      ensures Abs() == CallbackEntered(old(Abs()), tx, state, requestOk, now)
    {
      var present := tx in transactions;
      var v := if present then transactions[tx] else Transaction("", 0);
      SubMap(transactions, transactions - {tx});
      transactions := transactions - {tx};
      if !present || v.expires <= now || v.state != state || !requestOk {
        return false;
      }
      Cleanup(now);
      return |sessions| < LIMIT;
    }

    /** The end of the login callback: nothing is opened for a login from before a reset. */
    method FinishCallback(startedIn: nat, previous: Key, key: Key, s: Session) returns (ok: bool)
      requires Valid()
      modifies `sessions
      ensures Valid() && (ok <==> startedIn == old(generation))
      ensures Abs() == if ok then Opened(old(Abs()), previous, key, s) else old(Abs())
    {
      if startedIn != generation {
        return false;
      }
      sessions := (sessions - {previous})[key := s];
      return true;
    }

    method Logout(key: Key)
      requires Valid()
      modifies `sessions
      ensures Valid() && Abs() == Without(old(Abs()), key)
    {
      sessions := sessions - {key};
    }

    /** Removes, one session at a time, those the logout token names. */
    method BackChannelLogout(c: LogoutClaims, now: int) returns (ok: bool)
      requires Valid()
      modifies `sessions, `ended, `transactions, `replays
      ensures Valid()
      ensures ok <==> BackChannel(old(Abs()), c, now).Some?
      ensures Abs() == if ok then BackChannel(old(Abs()), c, now).value else Cleaned(old(Abs()), now)
    {
      Cleanup(now);
      if c.jti in replays || |replays| >= LIMIT {
        return false;
      }
      replays := replays[c.jti := now + REPLAY_MEMORY];
      RemoveNamed(c);
      return true;
    }

    method RemoveNamed(c: LogoutClaims)
      modifies `sessions
      ensures Abs() == SignedOut(old(Abs()), c)
    {
      var todo := sessions.Keys;
      while todo != {}
        invariant todo <= sessions.Keys <= old(sessions).Keys
        invariant forall k :: k in sessions ==> sessions[k] == old(sessions)[k]
        invariant forall k :: k in old(sessions) && k !in todo ==> (k in sessions <==> !NamedBy(c, old(sessions)[k]))
        decreases todo
      {
        var k :| k in todo;
        if NamedBy(c, sessions[k]) {
          sessions := sessions - {k};
        }
        todo := todo - {k};
      }
    }

    method FrontChannelLogout(sid: string)
      requires Valid()
      modifies `sessions
      ensures Valid() && Abs() == SignedOutBySid(old(Abs()), sid)
    {
      var todo := sessions.Keys;
      while todo != {}
        invariant todo <= sessions.Keys <= old(sessions).Keys
        invariant forall k :: k in sessions ==> sessions[k] == old(sessions)[k]
        invariant forall k :: k in old(sessions) && k !in todo ==> (k in sessions <==> old(sessions)[k].sid != Some(sid))
        decreases todo
      {
        var k :| k in todo;
        if sessions[k].sid == Some(sid) {
          sessions := sessions - {k};
        }
        todo := todo - {k};
      }
    }

    /** The end of `session`, after the last await. */
    method Pass(key: Key, now: int) returns (ok: bool)
      requires Valid()
      modifies `sessions
      ensures Valid() && Abs() == Touched(old(Abs()), key, now) && (ok <==> key in old(sessions))
    {
      if key !in sessions {
        return false;
      }
      sessions := sessions[key := sessions[key].(last := now)];
      return true;
    }

    /** The refresh a request waits for: the one under way, or a new one. */
    method JoinRefresh(key: Key, id: GrantId) returns (grant: GrantId)
      requires Valid()
      modifies `refreshes
      ensures Valid() && Abs() == Begun(old(Abs()), key, id)
      ensures key in refreshes && grant == refreshes[key] && grant == if key in old(refreshes) then old(refreshes)[key] else id
    {
      if key !in refreshes {
        refreshes := refreshes[key := id];
      }
      return refreshes[key];
    }

    /** A failed refresh takes its session with it. */
    method FailRefresh(key: Key)
      requires Valid()
      modifies `sessions
      ensures Valid() && Abs() == Without(old(Abs()), key)
    {
      sessions := sessions - {key};
    }

    method ForgetRefresh(key: Key)
      requires Valid()
      modifies `refreshes
      ensures Valid() && Abs() == Forgot(old(Abs()), key)
    {
      refreshes := refreshes - {key};
    }

    /** A refresh comes back with new tokens: they are written only into a session that is still there. */
    method ApplyRefresh(key: Key, r: Renewed) returns (ok: bool)
      requires Valid()
      modifies `sessions
      ensures Valid() && (ok <==> key in old(sessions)) && Abs() == Refreshed(old(Abs()), key, r)
    {
      if key !in sessions {
        return false;
      }
      sessions := sessions[key := Renew(sessions[key], r)];
      return true;
    }
  }

  lemma Smaller<K, V>(m: map<K, V>, k: K)
    requires k in m
    ensures |m - {k}| == |m| - 1
  {
    assert (m - {k}).Keys == m.Keys - {k};
    assert |m - {k}| == |(m - {k}).Keys| && |m| == |m.Keys|;
  }

  lemma SubMap<K, V>(m: map<K, V>, n: map<K, V>)
    requires n.Keys <= m.Keys
    ensures |n| <= |m|
  {
    assert m.Keys == n.Keys + (m.Keys - n.Keys);
    assert |n| == |n.Keys| && |m| == |m.Keys|;
  }
}
