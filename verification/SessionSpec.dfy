/**
 What each step of the session boundary does, said outright, and which callbacks start an exchange, in terms of what
 happened before.
 */
module SessionSpec {
  import opened Text
  import opened Sessions
  import opened SessionRuns
  import opened SessionTheorems

  // ---- Which callbacks start an exchange -----------------------------------------------------------

  /** The action with index i issued the login transaction, at time `at`. */
  ghost predicate IssuedAt(o: Ops, start: State, acts: seq<Action>, i: nat, tx: Key, state: string, at: int)
  {
    && i < |acts| && acts[i] == StartLogin(tx, state) && Run(o, start, acts[..i]).Some?
    && var m := Run(o, start, acts[..i]).value; m.now == at && |LiveLogins(m.st, at)| < 500
  }

  /** After the action with index i neither a callback used the transaction up nor a reset came. */
  ghost predicate Unused(acts: seq<Action>, i: nat, tx: Key)
  {
    forall j :: i < j < |acts| ==> !acts[j].Reset? && !(acts[j].EnterCallback? && acts[j].tx == tx)
  }

  /** Where this is no step of its own a transaction is as it was, or has expired. */
  ghost predicate SameLogin(st: Store, st': Store, now: int, tx: Key)
  {
    && (tx in st'.transactions ==> tx in st.transactions && st'.transactions[tx] == st.transactions[tx])
    && (tx in st.transactions && now < st.transactions[tx].expires ==> tx in st'.transactions)
  }

  /** The step is about this transaction, or ends all of them. */
  predicate Concerns(a: Action, tx: Key)
  {
    a.Reset? || (a.StartLogin? && a.tx == tx) || (a.EnterCallback? && a.tx == tx)
  }

  /** How the operations treat login transactions. */
  ghost predicate Transactional(o: Ops)
  {
    && (forall st, k, now, tx {:trigger SameLogin(st, o.entered(st, k, now), now, tx)} :: SameLogin(st, o.entered(st, k, now), now, tx))
    && (forall st, other, state, now, tx {:trigger SameLogin(st, o.loggedIn(st, other, state, now), now, tx)} ::
          other != tx ==> SameLogin(st, o.loggedIn(st, other, state, now), now, tx))
    && (forall st, other, state, ok, now, tx {:trigger SameLogin(st, o.callback(st, other, state, ok, now), now, tx)} ::
          other != tx ==> SameLogin(st, o.callback(st, other, state, ok, now), now, tx))
    && (forall st, tx, state, ok, now :: tx !in o.callback(st, tx, state, ok, now).transactions)
    && (forall st, c, now, tx {:trigger SameLogin(st, o.backChannel(st, c, now), now, tx)} :: SameLogin(st, o.backChannel(st, c, now), now, tx))
    && (forall st, sid :: o.frontChannel(st, sid).transactions == st.transactions)
    && (forall st: Store, tx, state, now :: tx !in st.transactions ==> Issues(st, o.loggedIn(st, tx, state, now), tx, state, now))
  }

  /** A login is issued exactly while fewer than 500 transactions are alive, for five minutes. */
  ghost predicate Issues(st: Store, st': Store, tx: Key, state: string, now: int)
  {
    && (tx in st'.transactions <==> |LiveLogins(st, now)| < 500)
    && (tx in st'.transactions ==> st'.transactions[tx] == Transaction(state, now + 300000))
  }

  lemma CleanedSame(st: Store, now: int, tx: Key)
    ensures SameLogin(st, Cleaned(st, now), now, tx)
  {
  }

  lemma LoginSame(st: Store, other: Key, state: string, now: int, tx: Key)
    requires other != tx
    ensures SameLogin(st, LoginResult(st, other, state, now), now, tx)
  {
    CleanedSame(st, now, tx);
  }

  lemma CallbackSame(st: Store, other: Key, state: string, requestOk: bool, now: int, tx: Key)
    requires other != tx
    ensures SameLogin(st, CallbackEntered(st, other, state, requestOk, now), now, tx)
  {
    CleanedSame(Taken(st, other), now, tx);
  }

  lemma BackChannelSame(st: Store, c: LogoutClaims, now: int, tx: Key)
    ensures SameLogin(st, BackChannelResult(st, c, now), now, tx)
  {
    CleanedSame(st, now, tx);
  }

  lemma LoginIssues(st: Store, tx: Key, state: string, now: int)
    requires tx !in st.transactions
    ensures Issues(st, LoginResult(st, tx, state, now), tx, state, now)
  {
    LiveAre(st, now);
  }

  lemma RealTransactional()
    ensures Transactional(Real())
  {
    var o := Real();
    forall st, k, now, tx
      ensures SameLogin(st, o.entered(st, k, now), now, tx)
    {
      CleanedSame(st, now, tx);
    }
    forall st, other, state, now, tx | other != tx
      ensures SameLogin(st, o.loggedIn(st, other, state, now), now, tx)
    {
      LoginSame(st, other, state, now, tx);
    }
    forall st, other, state, ok, now, tx | other != tx
      ensures SameLogin(st, o.callback(st, other, state, ok, now), now, tx)
    {
      CallbackSame(st, other, state, ok, now, tx);
    }
    forall st, c, now, tx
      ensures SameLogin(st, o.backChannel(st, c, now), now, tx)
    {
      BackChannelSame(st, c, now, tx);
    }
    forall st: Store, tx, state, now | tx !in st.transactions
      ensures Issues(st, o.loggedIn(st, tx, state, now), tx, state, now)
    {
      LoginIssues(st, tx, state, now);
    }
  }

  lemma OthersLeaveLogin(o: Ops, s: State, a: Action, tx: Key)
    requires Transactional(o) && Enabled(s, a) && !Concerns(a, tx)
    ensures SameLogin(s.st, Next(o, s, a).st, s.now, tx)
  {
    if a.Enter? {
      assert SameLogin(s.st, o.entered(s.st, a.key, s.now), s.now, tx);
    } else if a.StartLogin? {
      assert SameLogin(s.st, o.loggedIn(s.st, a.tx, a.state, s.now), s.now, tx);
    } else if a.EnterCallback? {
      assert SameLogin(s.st, o.callback(s.st, a.tx, a.state, a.requestOk, s.now), s.now, tx);
    } else if a.BackChannelLogout? {
      assert SameLogin(s.st, o.backChannel(s.st, a.claims, s.now), s.now, tx);
    } else {
      assert Next(o, s, a).st.transactions == s.st.transactions;
    }
  }

  lemma IssuedLonger(o: Ops, start: State, acts: seq<Action>, a: Action, i: nat, tx: Key, state: string, at: int)
    requires IssuedAt(o, start, acts, i, tx, state, at) && Unused(acts, i, tx) && !a.Reset? && !(a.EnterCallback? && a.tx == tx)
    ensures IssuedAt(o, start, acts + [a], i, tx, state, at) && Unused(acts + [a], i, tx)
  {
    assert (acts + [a])[..i] == acts[..i];
  }

  /** The transaction in s is accounted for. */
  ghost predicate LoginTraced(o: Ops, start: State, acts: seq<Action>, s: State, tx: Key)
  {
    tx in s.st.transactions ==>
      exists i: nat :: IssuedAt(o, start, acts, i, tx, s.st.transactions[tx].state, s.st.transactions[tx].expires - 300000) && Unused(acts, i, tx)
  }

  lemma NewLoginTraced(o: Ops, start: State, acts: seq<Action>, s: State, tx: Key, state: string)
    requires Transactional(o) && Run(o, start, acts) == Some(s) && tx !in s.st.transactions && Enabled(s, StartLogin(tx, state))
    ensures LoginTraced(o, start, acts + [StartLogin(tx, state)], Next(o, s, StartLogin(tx, state)), tx)
  {
    assert Issues(s.st, o.loggedIn(s.st, tx, state, s.now), tx, state, s.now);
    var more, t := acts + [StartLogin(tx, state)], Next(o, s, StartLogin(tx, state));
    assert more[..|acts|] == acts && t.st.transactions == o.loggedIn(s.st, tx, state, s.now).transactions;
    if tx in t.st.transactions {
      assert IssuedAt(o, start, more, |acts|, tx, t.st.transactions[tx].state, t.st.transactions[tx].expires - 300000) && Unused(more, |acts|, tx);
    }
  }

  lemma OldLoginTraced(o: Ops, start: State, acts: seq<Action>, s: State, a: Action, t: State, tx: Key)
    requires LoginTraced(o, start, acts, s, tx) && tx in t.st.transactions && SameLogin(s.st, t.st, s.now, tx) && !Concerns(a, tx)
    ensures LoginTraced(o, start, acts + [a], t, tx)
  {
    var state, at := s.st.transactions[tx].state, s.st.transactions[tx].expires - 300000;
    var i: nat :| IssuedAt(o, start, acts, i, tx, state, at) && Unused(acts, i, tx);
    IssuedLonger(o, start, acts, a, i, tx, state, at);
  }

  lemma StepTraced(o: Ops, start: State, acts: seq<Action>, s: State, a: Action, tx: Key)
    requires Transactional(o) && Run(o, start, acts) == Some(s) && LoginTraced(o, start, acts, s, tx) && s.st.transactions.Keys <= s.issued && Enabled(s, a)
    ensures LoginTraced(o, start, acts + [a], Next(o, s, a), tx)
  {
    if a.StartLogin? && a.tx == tx {
      NewLoginTraced(o, start, acts, s, tx, a.state);
    } else if Concerns(a, tx) {
      UsedUpGone(o, s, a, tx);
    } else {
      OthersLeaveLogin(o, s, a, tx);
      if tx in Next(o, s, a).st.transactions {
        OldLoginTraced(o, start, acts, s, a, Next(o, s, a), tx);
      }
    }
  }

  lemma UsedUpGone(o: Ops, s: State, a: Action, tx: Key)
    requires Transactional(o) && Enabled(s, a) && (a.Reset? || (a.EnterCallback? && a.tx == tx))
    ensures tx !in Next(o, s, a).st.transactions
  {
  }

  /** A point of a run with the transaction accounted for. */
  ghost predicate Traced(o: Ops, start: State, acts: seq<Action>, s: State, tx: Key)
  {
    Run(o, start, acts) == Some(s) && Inv(s) && LoginTraced(o, start, acts, s, tx)
  }

  lemma TracedStep(o: Ops, start: State, acts: seq<Action>, s: State, a: Action, tx: Key)
    requires Transactional(o) && Lawful(o) && KeepsWithin(o) && Traced(o, start, acts, s, tx) && Enabled(s, a)
    ensures Traced(o, start, acts + [a], Next(o, s, a), tx)
  {
    StepTraced(o, start, acts, s, a, tx);
    RunAppend(o, start, acts, a);
    NextKeepsInv(o, s, a);
  }

  /** What holds at a point of a run, and is kept by each step, holds at every later point. */
  lemma {:induction false} Along(o: Ops, before: seq<Action>, s: State, acts: seq<Action>, t: State, p: (seq<Action>, State) -> bool)
    requires p(before, s) && Run(o, s, acts) == Some(t)
    requires forall m, x, a :: Enabled(x, a) && p(m, x) ==> p(m + [a], Next(o, x, a))
    ensures p(before + acts, t)
    decreases |acts|
  {
    if acts == [] {
      assert before + acts == before;
    } else {
      assert Enabled(s, acts[0]);
      Along(o, before + [acts[0]], Next(o, s, acts[0]), acts[1..], t, p);
      assert before + [acts[0]] + acts[1..] == before + acts;
    }
  }

  lemma RunTraced(o: Ops, start: State, acts: seq<Action>, t: State, tx: Key)
    requires Transactional(o) && Lawful(o) && KeepsWithin(o) && Inv(start) && start.st.transactions == map[] && Run(o, start, acts) == Some(t)
    ensures LoginTraced(o, start, acts, t, tx)
  {
    var p := (m: seq<Action>, x: State) => Traced(o, start, m, x, tx);
    forall m, x, a | Enabled(x, a) && p(m, x)
      ensures p(m + [a], Next(o, x, a))
    {
      TracedStep(o, start, m, x, a, tx);
    }
    Along(o, [], start, acts, t, p);
    assert [] + acts == acts;
  }

  lemma {:induction false} RunSplit(o: Ops, s: State, acts: seq<Action>, t: State, i: nat)
    requires Run(o, s, acts) == Some(t) && i <= |acts|
    ensures Run(o, s, acts[..i]).Some? && Run(o, Run(o, s, acts[..i]).value, acts[i..]) == Some(t)
    decreases |acts|
  {
    if i == 0 {
      assert acts[..i] == [] && acts[i..] == acts;
    } else {
      assert acts[..i][0] == acts[0] && acts[..i][1..] == acts[1..][..i - 1] && acts[i..] == acts[1..][i - 1..];
      RunSplit(o, Next(o, s, acts[0]), acts[1..], t, i - 1);
    }
  }

  /** Neither a reset nor a callback with the transaction. */
  ghost predicate Spared(acts: seq<Action>, tx: Key)
  {
    forall j :: 0 <= j < |acts| ==> !acts[j].Reset? && !(acts[j].EnterCallback? && acts[j].tx == tx)
  }

  /** A transaction that nothing uses up stays until it expires: it is issued only once. */
  lemma {:induction false} LoginStays(o: Ops, s: State, acts: seq<Action>, t: State, tx: Key)
    requires Transactional(o) && Run(o, s, acts) == Some(t) && Spared(acts, tx)
    requires tx in s.issued && tx in s.st.transactions && t.now < s.st.transactions[tx].expires
    ensures tx in t.st.transactions && t.st.transactions[tx] == s.st.transactions[tx]
    decreases |acts|
  {
    if acts != [] {
      TimeGoesOn(o, s, acts, t);
      OthersLeaveLogin(o, s, acts[0], tx);
      IssuedStay(o, s, acts[0], tx);
      LoginStays(o, Next(o, s, acts[0]), acts[1..], t, tx);
    }
  }

  lemma IssuedStay(o: Ops, s: State, a: Action, tx: Key)
    requires Enabled(s, a) && tx in s.issued
    ensures tx in Next(o, s, a).issued
  {
  }

  /** The transaction was issued less than five minutes ago, with this very state, and is unused. */
  ghost predicate GoodLogin(start: State, acts: seq<Action>, s: State, tx: Key, state: string)
  {
    exists i: nat, at :: IssuedAt(Real(), start, acts, i, tx, state, at) && s.now < at + 300000 && Unused(acts, i, tx)
  }

  lemma IssuedIsThere(o: Ops, start: State, acts: seq<Action>, s: State, i: nat, tx: Key, state: string, at: int)
    requires Transactional(o) && Lawful(o) && KeepsWithin(o) && Inv(start) && Run(o, start, acts) == Some(s)
    requires IssuedAt(o, start, acts, i, tx, state, at) && Unused(acts, i, tx) && s.now < at + 300000
    ensures tx in s.st.transactions && s.st.transactions[tx] == Transaction(state, at + 300000)
  {
    RunSplit(o, start, acts, s, i);
    var m := Run(o, start, acts[..i]).value;
    RunKeepsInv(o, start, acts[..i], m);
    assert acts[i..][0] == acts[i] && acts[i..][1..] == acts[i + 1..];
    IssuedStays(o, m, acts[i + 1..], s, tx, state);
  }

  lemma IssuedStays(o: Ops, m: State, acts: seq<Action>, s: State, tx: Key, state: string)
    requires Transactional(o) && Lawful(o) && Inv(m) && Enabled(m, StartLogin(tx, state)) && |LiveLogins(m.st, m.now)| < 500
    requires Run(o, Next(o, m, StartLogin(tx, state)), acts) == Some(s) && s.now < m.now + 300000
    requires Spared(acts, tx)
    ensures tx in s.st.transactions && s.st.transactions[tx] == Transaction(state, m.now + 300000)
  {
    assert tx !in m.st.transactions;
    assert Issues(m.st, o.loggedIn(m.st, tx, state, m.now), tx, state, m.now);
    LoginStays(o, Next(o, m, StartLogin(tx, state)), acts, s, tx);
  }

  lemma MayExchangeIff(st: Store, tx: Key, state: string, requestOk: bool, now: int)
    ensures MayExchange(st, tx, state, requestOk, now) <==>
              requestOk && tx in st.transactions && st.transactions[tx].state == state && now < st.transactions[tx].expires
              && |LiveKeys(st, now)| < 500
  {
    LiveAre(Taken(st, tx), now);
    assert LiveKeys(Taken(st, tx), now) == LiveKeys(st, now);
  }

  /** Over every run: a callback starts an exchange if and only if its request is in order, its login was begun with
      this very state less than five minutes ago and neither used nor reset since, and fewer than 500 sessions are
      alive. */
  lemma ExchangeIff(now: int, acts: seq<Action>, s: State, c: nat, tx: Key, state: string, requestOk: bool)
    requires Run(Real(), Initial(now), acts) == Some(s) && Enabled(s, EnterCallback(c, tx, state, requestOk))
    ensures Next(Real(), s, EnterCallback(c, tx, state, requestOk)).calls[c].Exchanging? <==>
              requestOk && GoodLogin(Initial(now), acts, s, tx, state) && |LiveKeys(s.st, s.now)| < 500
    ensures var p := Next(Real(), s, EnterCallback(c, tx, state, requestOk)).calls[c]; p == Exchanging(s.st.generation) || p == Refused
  {
    RealLawful();
    RealTransactional();
    InitialInv(now);
    GoodLoginIff(Real(), Initial(now), acts, s, tx, state);
    MayExchangeIff(s.st, tx, state, requestOk, s.now);
  }

  lemma GoodLoginIff(o: Ops, start: State, acts: seq<Action>, s: State, tx: Key, state: string)
    requires Transactional(o) && Lawful(o) && KeepsWithin(o) && Inv(start) && start.st.transactions == map[] && Run(o, start, acts) == Some(s)
    ensures (exists i: nat, at :: IssuedAt(o, start, acts, i, tx, state, at) && s.now < at + 300000 && Unused(acts, i, tx)) <==>
              tx in s.st.transactions && s.st.transactions[tx].state == state && s.now < s.st.transactions[tx].expires
  {
    RunTraced(o, start, acts, s, tx);
    if i: nat, at :| IssuedAt(o, start, acts, i, tx, state, at) && s.now < at + 300000 && Unused(acts, i, tx) {
      IssuedIsThere(o, start, acts, s, i, tx, state, at);
    }
  }

  // ---- What a step does to sessions and calls ------------------------------------------------------

  /** A session after a refresh: new token and expiry, and an identifier if it had none. */
  ghost function RenewedBy(x: Session, r: Renewed): Session
  {
    Session(x.subject, if x.sid.Some? then x.sid else r.sid, r.refresh, r.expires, x.created, x.last)
  }

  /** A request of call c passes on session k: its token has a minute left, or its refresh has succeeded. */
  ghost predicate Passes(s: State, a: Action, c: nat, k: Key)
  {
    && k in s.st.sessions && c in s.calls
    && ((a.TokenVerified? && a.call == c && a.ok && s.calls[c] == Verifying(k) && k in s.objects && s.objects[k].expires - s.now >= 60000)
        || (a.Resume? && a.call == c && s.calls[c].Awaiting? && s.calls[c].key == k
            && s.calls[c].grant in s.grants && s.grants[s.calls[c].grant].phase == Forgotten(true)))
  }

  lemma PassMeans(s: State, a: Action, c: nat, k: Key)
    requires StoreRecorded(s) && Enabled(s, a) && !(c in s.calls && s.calls[c] == Passed(k))
    ensures var t := Next(Real(), s, a); c in t.calls && t.calls[c] == Passed(k) <==> Passes(s, a, c, k)
  {
  }

  /** Sessions go at most. */
  ghost predicate OnlyLoses(st: Store, st': Store)
  {
    forall k :: k in st'.sessions ==> k in st.sessions && st'.sessions[k] == st.sessions[k]
  }

  lemma SweepsOnlyLose(st: Store, k: Key, tx: Key, state: string, c: LogoutClaims, sid: string, now: int)
    ensures OnlyLoses(st, Entered(st, k, now)) && OnlyLoses(st, LoginResult(st, tx, state, now))
    ensures OnlyLoses(st, BackChannelResult(st, c, now)) && OnlyLoses(st, SignedOutBySid(st, sid))
  {
  }

  lemma CallbackOnlyLoses(st: Store, tx: Key, state: string, ok: bool, now: int)
    ensures OnlyLoses(st, CallbackEntered(st, tx, state, ok, now))
  {
  }

  lemma SweptContent(s: State, a: Action, k: Key)
    requires Enabled(s, a) && (a.Enter? || a.StartLogin? || a.EnterCallback? || a.BackChannelLogout? || a.FrontChannelLogout?)
    ensures OnlyLoses(s.st, Next(Real(), s, a).st)
  {
    if a.Enter? {
      SweepsOnlyLose(s.st, a.key, "", "", LogoutClaims("", None, None), "", s.now);
    } else if a.StartLogin? {
      SweepsOnlyLose(s.st, "", a.tx, a.state, LogoutClaims("", None, None), "", s.now);
    } else if a.EnterCallback? {
      CallbackOnlyLoses(s.st, a.tx, a.state, a.requestOk, s.now);
    } else if a.BackChannelLogout? {
      SweepsOnlyLose(s.st, "", "", "", a.claims, "", s.now);
    } else {
      SweepsOnlyLose(s.st, "", "", "", LogoutClaims("", None, None), a.sid, s.now);
    }
  }

  /** What becomes of the content of a session that stays. */
  ghost function ContentAfter(s: State, a: Action, k: Key): Session
    requires k in s.st.sessions && Enabled(s, a)
  {
    var x := s.st.sessions[k];
    if a.Arrive? && a.answer.Some? && s.grants[a.grant].key == k then RenewedBy(x, a.answer.value)
    else if (a.TokenVerified? || a.Resume?) && Passes(s, a, a.call, k) then x.(last := s.now)
    else x
  }

  lemma FinalCheckContent(s: State, c: nat, key: Key, k: Key)
    requires k in s.st.sessions
    ensures var t := FinalCheck(s, c, key); k in t.st.sessions && t.st.sessions[k] == if key == k then s.st.sessions[k].(last := s.now) else s.st.sessions[k]
  {
  }

  lemma VerifiedContent(s: State, a: Action, k: Key)
    requires StoreRecorded(s) && Enabled(s, a) && k in s.st.sessions && a.TokenVerified?
    ensures k in Next(Real(), s, a).st.sessions && Next(Real(), s, a).st.sessions[k] == ContentAfter(s, a, k)
  {
    var key := s.calls[a.call].key;
    FinalCheckContent(s, a.call, key, k);
    assert Next(Real(), s, a) == AfterVerified(s, a.call, a.ok, a.id);
  }

  lemma ResumedContent(s: State, a: Action, k: Key)
    requires StoreRecorded(s) && Enabled(s, a) && k in s.st.sessions && a.Resume?
    ensures k in Next(Real(), s, a).st.sessions && Next(Real(), s, a).st.sessions[k] == ContentAfter(s, a, k)
  {
    FinalCheckContent(s, a.call, s.calls[a.call].key, k);
  }

  lemma ArrivedContent(s: State, a: Action, k: Key)
    requires Enabled(s, a) && k in s.st.sessions && a.Arrive?
    ensures k in Next(Real(), s, a).st.sessions && Next(Real(), s, a).st.sessions[k] == ContentAfter(s, a, k)
  {
    assert Next(Real(), s, a) == AfterArrive(s, a.grant, a.answer);
  }

  lemma OtherContent(s: State, a: Action, k: Key)
    requires StoreRecorded(s) && Enabled(s, a) && k in s.st.sessions && k in Next(Real(), s, a).st.sessions
    requires a.Catch? || a.Forget? || a.FinishCallback? || a.EndLogout? || a.Reset? || a.Tick?
    ensures Next(Real(), s, a).st.sessions[k] == s.st.sessions[k]
  {
  }

  /** A session that stays is as it was, but for a refresh that comes back for it and a request that passes on it. */
  lemma ContentMeans(s: State, a: Action, k: Key)
    requires StoreRecorded(s) && Enabled(s, a) && k in s.st.sessions && k in Next(Real(), s, a).st.sessions
    ensures Next(Real(), s, a).st.sessions[k] == ContentAfter(s, a, k)
  {
    if a.TokenVerified? {
      VerifiedContent(s, a, k);
    } else if a.Resume? {
      ResumedContent(s, a, k);
    } else if a.Arrive? {
      ArrivedContent(s, a, k);
    } else if a.Enter? || a.StartLogin? || a.EnterCallback? || a.BackChannelLogout? || a.FrontChannelLogout? {
      SweptContent(s, a, k);
    } else {
      OtherContent(s, a, k);
    }
  }

  lemma FinishOpens(s: State, a: Action)
    requires Enabled(s, a) && a.FinishCallback? && a.key !in s.st.sessions
    ensures var t := Next(Real(), s, a);
            && (a.key in t.st.sessions <==> a.session.Some? && s.calls[a.call].generation == s.st.generation)
            && (a.key in t.st.sessions ==> t.st.sessions[a.key] == a.session.value.(created := s.now, last := s.now))
  {
  }

  /** A session opens exactly at the end of a callback of this generation, as its tokens say and as of now. */
  lemma OpenedMeans(s: State, a: Action, k: Key)
    requires StoreRecorded(s) && Enabled(s, a) && k !in s.st.sessions
    ensures var t := Next(Real(), s, a);
            && (k in t.st.sessions <==> a.FinishCallback? && a.key == k && a.session.Some? && s.calls[a.call].generation == s.st.generation)
            && (k in t.st.sessions ==> t.st.sessions[k] == a.session.value.(created := s.now, last := s.now))
  {
    RealLawful();
    NextEffects(Real(), s, a);
    if a.FinishCallback? && a.key == k {
      FinishOpens(s, a);
    }
  }

  /** A request goes on exactly with a session that is there, neither outworn nor expired. */
  lemma EnterMeans(s: State, c: nat, k: Key)
    requires Enabled(s, Enter(c, k))
    ensures Next(Real(), s, Enter(c, k)).calls[c] ==
            if k in s.st.sessions && !Outworn(s.st.sessions[k], s.now) && s.now < s.st.sessions[k].expires then Verifying(k) else Refused
  {
  }

  /** A request whose token is verified with less than a minute left waits for the session's refresh: the one under
      way, or a new one. */
  lemma WaitMeans(s: State, c: nat, id: GrantId)
    requires Enabled(s, TokenVerified(c, true, id)) && s.objects[s.calls[c].key].expires - s.now < 60000
    ensures var t, k := Next(Real(), s, TokenVerified(c, true, id)), s.calls[c].key;
            if k in s.st.refreshes then t.calls[c] == Awaiting(k, s.st.refreshes[k]) && t.grants == s.grants
            else t.calls[c] == Awaiting(k, id) && t.grants == s.grants[id := Grant(k, Requested)]
  {
  }

  /** A refresh succeeds exactly if it brings tokens and its session is still there. */
  lemma RefreshMeans(s: State, g: GrantId, answer: Option<Renewed>)
    requires Enabled(s, Arrive(g, answer))
    ensures var t := Next(Real(), s, Arrive(g, answer));
            t.grants[g].phase == if answer.Some? && s.grants[g].key in s.st.sessions then Settled(true) else Throwing
  {
  }
}
