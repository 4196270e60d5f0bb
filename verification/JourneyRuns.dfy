/**
 Every run of the journey engine: commands, status reads, deadlines and service answers of all users in any
 order, with answers that may come late, twice or never.
 */
module JourneyRuns {
  import opened Text
  import opened Journey
  import opened JourneyRun

  /** What a message, a status read and a service answer make of the store.  The runs here are over any such
      functions that satisfy `Lawful`; JourneyTheorems puts the engine's own in their place. */
  datatype Engine = Engine(
    commanded: (Store, UserId, string, Command, Id, int) -> Store,
    looked: (Store, UserId, int) -> Store,
    completed: (Store, UserId, Ticket, Option<Outcome>, int) -> Store,
    sound: Store -> bool)

  /** `used` holds every identifier given out, `tickets` every request's continuation. */
  datatype State = State(store: Store, now: int, used: set<Id>, tickets: set<Ticket>)

  datatype Action =
    | Message(user: UserId, commandId: string, command: Command, id: Id)
    | StatusRead(user: UserId)
    | Response(user: UserId, ticket: Ticket, answer: Option<Outcome>)
    | Tick(later: int)

  /** Identifiers are random: each is new.  A service answer carries the ticket of some request. */
  ghost predicate Enabled(s: State, a: Action)
  {
    match a
    case Message(_, _, _, id) => id !in s.used
    case StatusRead(_) => true
    case Response(_, t, _) => t in s.tickets
    case Tick(later) => s.now <= later
  }

  ghost function TicketSet(st: Store, user: UserId): set<Ticket>
  {
    if TicketOf(st, user).Some? then {TicketOf(st, user).value} else {}
  }

  ghost function Next(e: Engine, s: State, a: Action): State
  {
    match a
    case Message(user, commandId, command, id) =>
      var st := e.commanded(s.store, user, commandId, command, id, s.now);
      s.(store := st, used := s.used + {id}, tickets := s.tickets + TicketSet(st, user))
    case StatusRead(user) => s.(store := e.looked(s.store, user, s.now))
    case Response(user, t, answer) => s.(store := e.completed(s.store, user, t, answer, s.now))
    case Tick(later) => s.(now := later)
  }

  ghost function After(e: Engine, s: State, acts: seq<Action>): Option<State>
    decreases |acts|
  {
    if acts == [] then Some(s)
    else if Enabled(s, acts[0]) then After(e, Next(e, s, acts[0]), acts[1..])
    else None
  }

  ghost function Initial(now: int): State
  {
    State(Store(map[], map[]), now, {}, {})
  }

  // ---- What an action does to the store ------------------------------------------------------------

  ghost predicate Distinct(h: seq<string>)
  {
    forall i, j :: 0 <= i < j < |h| ==> h[i] != h[j]
  }

  ghost predicate HistoryOk(h: seq<string>)
  {
    |h| <= KEPT && Distinct(h)
  }

  ghost predicate HistoriesOk(st: Store)
  {
    forall u :: u in st.histories ==> HistoryOk(st.histories[u])
  }

  /** A pending request got its answer. */
  ghost predicate Ended(r: Run, t: Run)
  {
    && IsPending(r) && !IsPending(t) && t.terminal && t.owner == r.owner && t.id == r.id && t.plan == r.plan && t.activeStep == r.activeStep
    && t.request.Some? && t.request.value.id == r.request.value.id && t.request.value.deadline == r.request.value.deadline
  }

  /** What can become of a run in one action; a run that has ended stays as it is.  `id` is the new
      identifier the action may use, if any. */
  ghost predicate Follows(r: Run, t: Run, id: Option<Id>)
  {
    t == r || (!r.terminal && (Ended(r, t) || (id.Some? && Moved(r, t, id.value))))
  }

  ghost predicate Fresh(t: Run, id: Option<Id>)
  {
    id == Some(t.id) && t.request.None?
  }

  /** Only the user's own run is touched: it goes on, or ends, or is gone, or is a new one. */
  ghost predicate Touches(st: Store, st': Store, user: UserId, id: Option<Id>)
  {
    && (forall u :: u != user ==> (u in st'.states <==> u in st.states))
    && (forall u :: u != user && u in st.states ==> st'.states[u] == st.states[u])
    && (user in st'.states ==> Fresh(st'.states[user], id) || (user in st.states && Follows(st.states[user], st'.states[user], id)))
  }

  ghost predicate Keeps(e: Engine, st: Store, st': Store, user: UserId, id: Option<Id>)
  {
    e.sound(st') && Touches(st, st', user, id)
  }

  ghost predicate Lawful(e: Engine)
  {
    && (forall st, user, commandId, command, id, now ::
          e.sound(st) ==> Keeps(e, st, e.commanded(st, user, commandId, command, id, now), user, Some(id)))
    && (forall st, user, now :: e.sound(st) ==> Keeps(e, st, e.looked(st, user, now), user, None))
    && (forall st, user, t, answer, now ::
          e.sound(st) && MatchesIn(st, user, t) ==> Keeps(e, st, e.completed(st, user, t, answer, now), user, None))
    && (forall st, user, t, answer, now :: !Awaits(st, user, t) ==> e.completed(st, user, t, answer, now) == st)
    && e.sound(Store(map[], map[]))
  }

  // ---- The invariant ---------------------------------------------------------------------------

  ghost predicate Known(used: set<Id>, r: Run)
  {
    r.id in used && (r.request.Some? ==> r.request.value.id in used)
  }

  /** A ticket's request identifier belongs to its own run only. */
  ghost predicate Matches(r: Run, u: UserId, t: Ticket)
  {
    r.request.Some? && r.request.value.id == t.request ==> u == t.owner && r.id == t.run && r.request.value.deadline == t.deadline
  }

  ghost predicate MatchesIn(st: Store, u: UserId, t: Ticket)
  {
    u in st.states ==> Matches(st.states[u], u, t)
  }

  ghost predicate TicketOk(s: State, t: Ticket)
  {
    t.request in s.used && t.run in s.used && forall u :: MatchesIn(s.store, u, t)
  }

  ghost predicate AllKnown(s: State)
  {
    forall u :: u in s.store.states ==> Known(s.used, s.store.states[u])
  }

  ghost predicate TicketsOk(s: State)
  {
    forall t :: t in s.tickets ==> TicketOk(s, t)
  }

  /** Requests of different users have different identifiers. */
  ghost predicate AllApart(s: State)
  {
    forall u, v :: u in s.store.states && v in s.store.states && u != v ==> Apart(s.store.states[u], s.store.states[v])
  }

  ghost predicate Apart(r: Run, q: Run)
  {
    r.request.Some? && q.request.Some? ==> r.request.value.id != q.request.value.id
  }

  ghost predicate Inv(e: Engine, s: State)
  {
    e.sound(s.store) && AllKnown(s) && TicketsOk(s) && AllApart(s)
  }

  /** The change an action makes: to the run of one user, with a new identifier if it uses one, and with a
      ticket for the user's request if it has sent one. */
  ghost predicate Effect(e: Engine, s: State, t: State, user: UserId, id: Option<Id>)
  {
    && Keeps(e, s.store, t.store, user, id) && (id.Some? ==> id.value !in s.used)
    && t.used == s.used + (if id.Some? then {id.value} else {})
    && t.tickets == s.tickets + (if id.Some? then TicketSet(t.store, user) else {})
  }

  ghost function UserOf(a: Action): UserId
  {
    if a.Tick? then "" else a.user
  }

  ghost function NewId(a: Action): Option<Id>
  {
    if a.Message? then Some(a.id) else None
  }

  lemma NextEffect(e: Engine, s: State, a: Action)
    requires Lawful(e) && Inv(e, s) && Enabled(s, a)
    ensures Effect(e, s, Next(e, s, a), UserOf(a), NewId(a))
  {
    if a.Response? {
      assert TicketOk(s, a.ticket);
      assert MatchesIn(s.store, a.user, a.ticket);
    }
  }

  lemma EffectKeepsKnown(e: Engine, s: State, t: State, user: UserId, id: Option<Id>)
    requires AllKnown(s) && Effect(e, s, t, user, id)
    ensures AllKnown(t)
  {
    forall u | u in t.store.states
      ensures Known(t.used, t.store.states[u])
    {
      if u in s.store.states {
        assert Known(s.used, s.store.states[u]);
      }
    }
  }

  lemma EffectKeepsApart(e: Engine, s: State, t: State, user: UserId, id: Option<Id>)
    requires AllKnown(s) && AllApart(s) && Effect(e, s, t, user, id)
    ensures AllApart(t)
  {
    forall u, v | u in t.store.states && v in t.store.states && u != v
      ensures Apart(t.store.states[u], t.store.states[v])
    {
      if u in s.store.states && v in s.store.states {
        assert Apart(s.store.states[u], s.store.states[v]) && Apart(s.store.states[v], s.store.states[u]);
      }
      assert u in s.store.states ==> Known(s.used, s.store.states[u]);
      assert v in s.store.states ==> Known(s.used, s.store.states[v]);
    }
  }

  lemma EffectKeepsTickets(e: Engine, s: State, t: State, user: UserId, id: Option<Id>)
    requires AllKnown(s) && TicketsOk(s) && AllApart(s) && Effect(e, s, t, user, id) && AllKnown(t) && AllApart(t)
    ensures TicketsOk(t)
  {
    forall x | x in t.tickets
      ensures TicketOk(t, x)
    {
      forall u
        ensures MatchesIn(t.store, u, x)
      {
        if x in s.tickets {
          assert TicketOk(s, x) && MatchesIn(s.store, u, x);
        } else if u in t.store.states && u != user {
          assert Apart(t.store.states[user], t.store.states[u]);
        }
      }
      if x !in s.tickets {
        assert Known(t.used, t.store.states[user]);
      }
    }
  }

  lemma NextKeepsInv(e: Engine, s: State, a: Action)
    requires Lawful(e) && Inv(e, s) && Enabled(s, a)
    ensures Inv(e, Next(e, s, a))
  {
    var t := Next(e, s, a);
    NextEffect(e, s, a);
    EffectKeepsKnown(e, s, t, UserOf(a), NewId(a));
    EffectKeepsApart(e, s, t, UserOf(a), NewId(a));
    EffectKeepsTickets(e, s, t, UserOf(a), NewId(a));
  }

  lemma {:induction false} RunKeepsInv(e: Engine, s: State, acts: seq<Action>, t: State)
    requires Lawful(e) && Inv(e, s) && After(e, s, acts) == Some(t)
    ensures Inv(e, t)
    decreases |acts|
  {
    if acts == [] {
    } else {
      NextKeepsInv(e, s, acts[0]);
      RunKeepsInv(e, Next(e, s, acts[0]), acts[1..], t);
    }
  }

  lemma InitialInv(e: Engine, now: int)
    requires Lawful(e)
    ensures Inv(e, Initial(now))
  {
  }

  // ---- A request is completed at most once --------------------------------------------------------

  /** The ticket was given out and no run waits for its answer any more. */
  ghost predicate Closed(s: State, t: Ticket)
  {
    t.request in s.used && forall u :: u in s.store.states ==> NotWaiting(s.store.states[u], t)
  }

  ghost predicate NotWaiting(r: Run, t: Ticket)
  {
    IsPending(r) ==> r.request.value.id != t.request
  }

  lemma ClosedStays(e: Engine, s: State, t: State, user: UserId, id: Option<Id>, x: Ticket)
    requires Closed(s, x) && Effect(e, s, t, user, id)
    ensures Closed(t, x)
  {
    forall u | u in t.store.states
      ensures NotWaiting(t.store.states[u], x)
    {
      if u in s.store.states {
        assert NotWaiting(s.store.states[u], x);
      }
    }
  }

  /** A closed ticket stays closed, and every further answer to it changes nothing. */
  lemma {:induction false} ClosedForever(e: Engine, s: State, acts: seq<Action>, t: State, x: Ticket, a: Action)
    requires Lawful(e) && Inv(e, s) && Closed(s, x) && After(e, s, acts) == Some(t)
    requires Enabled(t, a) && a.Response? && a.ticket == x
    ensures Next(e, t, a) == t
    decreases |acts|
  {
    if acts == [] {
      assert !Awaits(t.store, a.user, x);
    } else {
      NextEffect(e, s, acts[0]);
      NextKeepsInv(e, s, acts[0]);
      ClosedStays(e, s, Next(e, s, acts[0]), UserOf(acts[0]), NewId(acts[0]), x);
      ClosedForever(e, Next(e, s, acts[0]), acts[1..], t, x, a);
    }
  }

  // ---- Runs only go forward -----------------------------------------------------------------------

  /** A run that is still there has not gone back, keeps its plan, and if it had ended it is unchanged. */
  ghost predicate Later(r: Run, t: Run)
  {
    && r.activeStep <= t.activeStep && t.plan == r.plan && t.owner == r.owner && (r.terminal ==> t == r)
    && (r.request.Some? ==> t.request.Some? && t.request.value.id == r.request.value.id)
  }

  lemma EffectGoesForward(e: Engine, s: State, t: State, user: UserId, id: Option<Id>, u: UserId)
    requires AllKnown(s) && Effect(e, s, t, user, id) && u in s.store.states && u in t.store.states
    requires t.store.states[u].id == s.store.states[u].id
    ensures Later(s.store.states[u], t.store.states[u])
  {
    assert Known(s.used, s.store.states[u]);
  }

  /** Identifier x was given out and the user's run, if any, has another one. */
  ghost predicate Gone(s: State, u: UserId, x: Id)
  {
    x in s.used && (u in s.store.states ==> s.store.states[u].id != x)
  }

  lemma GoneStays(e: Engine, s: State, t: State, user: UserId, id: Option<Id>, u: UserId, x: Id)
    requires Effect(e, s, t, user, id) && Gone(s, u, x)
    ensures Gone(t, u, x)
  {
  }

  lemma {:induction false} GoneForever(e: Engine, s: State, acts: seq<Action>, t: State, u: UserId, x: Id)
    requires Lawful(e) && Inv(e, s) && Gone(s, u, x) && After(e, s, acts) == Some(t)
    ensures Gone(t, u, x)
    decreases |acts|
  {
    if acts == [] {
    } else {
      NextEffect(e, s, acts[0]);
      NextKeepsInv(e, s, acts[0]);
      GoneStays(e, s, Next(e, s, acts[0]), UserOf(acts[0]), NewId(acts[0]), u, x);
      GoneForever(e, Next(e, s, acts[0]), acts[1..], t, u, x);
    }
  }

  /** Over any stretch of actions. */
  lemma {:induction false} RunGoesForward(e: Engine, s: State, acts: seq<Action>, t: State, u: UserId)
    requires Lawful(e) && Inv(e, s) && After(e, s, acts) == Some(t) && u in s.store.states
    ensures u in t.store.states && t.store.states[u].id == s.store.states[u].id ==> Later(s.store.states[u], t.store.states[u])
    decreases |acts|
  {
    if acts == [] {
    } else {
      var m := Next(e, s, acts[0]);
      NextEffect(e, s, acts[0]);
      NextKeepsInv(e, s, acts[0]);
      assert Known(s.used, s.store.states[u]);
      if u in m.store.states && m.store.states[u].id == s.store.states[u].id {
        EffectGoesForward(e, s, m, UserOf(acts[0]), NewId(acts[0]), u);
        RunGoesForward(e, m, acts[1..], t, u);
      } else {
        GoneForever(e, m, acts[1..], t, u, s.store.states[u].id);
      }
    }
  }

  /** A ticket is closed as soon as its own run does not wait for it. */
  lemma ClosedIffNotAwaited(e: Engine, s: State, x: Ticket)
    requires Inv(e, s) && x in s.tickets
    requires x.owner in s.store.states ==> s.store.states[x.owner].owner == x.owner && (IsPending(s.store.states[x.owner]) ==> s.store.states[x.owner].mode == HttpSample)
    ensures Closed(s, x) <==> !Awaits(s.store, x.owner, x)
  {
    assert TicketOk(s, x) && MatchesIn(s.store, x.owner, x);
    if !Awaits(s.store, x.owner, x) {
      forall u | u in s.store.states
        ensures NotWaiting(s.store.states[u], x)
      {
        assert MatchesIn(s.store, u, x);
      }
    } else {
      assert !NotWaiting(s.store.states[x.owner], x);
    }
  }
}
