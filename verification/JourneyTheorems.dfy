/**
 The engine's own functions satisfy the laws of JourneyRuns, and what follows for every run of the engine.
 */
module JourneyTheorems {
  import opened Text
  import opened Journey
  import opened JourneyRun
  import opened JourneyRuns

  ghost predicate RunsOk(c: Settings, st: Store)
  {
    forall u :: u in st.states ==> RunSound(c.mode, st.states[u]) && st.states[u].owner == u
  }

  lemma LookedStep(c: Settings, st: Store, user: UserId, now: int)
    requires RunsOk(c, st)
    ensures RunsOk(c, Looked(st, user, now)) && Touches(st, Looked(st, user, now), user, None)
    ensures Looked(st, user, now).histories == st.histories
  {
    if user in st.states {
      ExpiredSound(c.mode, st.states[user], now);
    }
  }

  lemma {:induction false} RememberOk(h: seq<string>, id: string)
    requires HistoryOk(h) && id !in h
    ensures HistoryOk(Remember(h, id)) && id in Remember(h, id)
  {
    assert Remember(h, id)[|Remember(h, id)| - 1] == id;
  }

  /** The user's run is replaced by a sound one that follows it or is new. */
  lemma PutStep(c: Settings, st: Store, user: UserId, t: Run, id: Option<Id>)
    requires RunsOk(c, st) && RunSound(c.mode, t) && t.owner == user
    requires Fresh(t, id) || (user in st.states && Follows(st.states[user], t, id))
    ensures RunsOk(c, st.(states := st.states[user := t])) && Touches(st, st.(states := st.states[user := t]), user, id)
  {
  }

  lemma UntouchedStep(c: Settings, st: Store, user: UserId, id: Option<Id>)
    requires RunsOk(c, st)
    ensures Touches(st, st, user, id)
    ensures Touches(st, st.(states := st.states - {user}), user, id) && RunsOk(c, st.(states := st.states - {user}))
  {
  }

  lemma AdvancedForIs(c: Settings, st: Store, user: UserId, run: Id, id: Id, now: int)
    ensures var t := AdvancedFor(c, st, user, run, id, now).store;
            t == st ||
            (user in st.states && CanAdvance(st.states[user])
             && t == st.(states := st.states[user := Advanced(c.mode, st.states[user], id, now + c.flowDeadline)]))
  {
  }

  lemma AdvancedForStep(c: Settings, st: Store, user: UserId, run: Id, id: Id, now: int, t: Store)
    requires RunsOk(c, st) && t == AdvancedFor(c, st, user, run, id, now).store
    ensures RunsOk(c, t) && Touches(st, t, user, Some(id)) && t.histories == st.histories
  {
    AdvancedForIs(c, st, user, run, id, now);
    if t == st {
      UntouchedStep(c, st, user, Some(id));
    } else {
      AdvancedRunStep(c, st, user, id, now + c.flowDeadline, Advanced(c.mode, st.states[user], id, now + c.flowDeadline));
    }
  }

  lemma AdvancedRunStep(c: Settings, st: Store, user: UserId, id: Id, deadline: int, t: Run)
    requires RunsOk(c, st) && user in st.states && CanAdvance(st.states[user]) && t == Advanced(c.mode, st.states[user], id, deadline)
    ensures RunsOk(c, st.(states := st.states[user := t])) && Touches(st, st.(states := st.states[user := t]), user, Some(id))
  {
    AdvancedSound(c.mode, st.states[user], id, deadline);
    AdvancedMoves(c.mode, st.states[user], id, deadline);
    PutStep(c, st, user, t, Some(id));
  }

  lemma StartedForIs(c: Settings, st: Store, user: UserId, d: StartData, id: Id)
    requires SettingsOk(c)
    ensures var t := StartedFor(c, st, user, d, id).store;
            t == st || (Resolve(c, d).Found? && t == st.(states := st.states[user := Started(user, id, Resolve(c, d).plan, c.mode)]))
  {
  }

  lemma StartedForStep(c: Settings, st: Store, user: UserId, d: StartData, id: Id, t: Store)
    requires RunsOk(c, st) && SettingsOk(c) && t == StartedFor(c, st, user, d, id).store
    ensures RunsOk(c, t) && Touches(st, t, user, Some(id)) && t.histories == st.histories
  {
    StartedForIs(c, st, user, d, id);
    if t == st {
      UntouchedStep(c, st, user, Some(id));
    } else {
      var plan := Resolve(c, d).plan;
      StartedSound(user, id, plan, c.mode);
      PutStep(c, st, user, Started(user, id, plan, c.mode), Some(id));
    }
  }

  /** The deadline first, then the command: still a single change. */
  lemma ThenTouches(st: Store, l: Store, t: Store, user: UserId, id: Id)
    requires Touches(st, l, user, None) && Touches(l, t, user, Some(id))
    ensures Touches(st, t, user, Some(id))
  {
  }

  /** The command itself, after the deadline and the command history. */
  function Acted(c: Settings, st: Store, user: UserId, command: Command, id: Id, now: int): Store
    requires SettingsOk(c)
  {
    match command
    case Start(d) => StartedFor(c, st, user, d, id).store
    case Reset(run) => ResetFor(st, user, run).store
    case Next(run) => AdvancedFor(c, st, user, run, id, now).store
  }

  lemma CommandedIs(c: Settings, st: Store, user: UserId, commandId: string, command: Command, id: Id, now: int)
    requires SettingsOk(c)
    ensures var t, l := Commanded(c, st, user, commandId, command, id, now).store, Looked(st, user, now);
            t == l || (commandId !in History(l, user) && t == Acted(c, Recorded(l, user, commandId), user, command, id, now))
  {
  }

  lemma ActedStep(c: Settings, st: Store, user: UserId, command: Command, id: Id, now: int, t: Store)
    requires SettingsOk(c) && RunsOk(c, st) && t == Acted(c, st, user, command, id, now)
    ensures RunsOk(c, t) && Touches(st, t, user, Some(id)) && t.histories == st.histories
  {
    if command.Start? {
      StartedForStep(c, st, user, command.data, id, t);
    } else if command.Reset? {
      UntouchedStep(c, st, user, Some(id));
    } else {
      AdvancedForStep(c, st, user, command.run, id, now, t);
    }
  }

  /** The store with the command remembered, if it is accepted into the history. */
  function Recorded(st: Store, user: UserId, commandId: string): Store
  {
    st.(histories := st.histories[user := Remember(History(st, user), commandId)])
  }

  lemma CommandedStep(c: Settings, st: Store, user: UserId, commandId: string, command: Command, id: Id, now: int, t: Store)
    requires SettingsOk(c) && RunsOk(c, st) && HistoriesOk(st) && t == Commanded(c, st, user, commandId, command, id, now).store
    ensures RunsOk(c, t) && Touches(st, t, user, Some(id)) && HistoriesOk(t)
  {
    CommandedIs(c, st, user, commandId, command, id, now);
    LookedStep(c, st, user, now);
    CommandedCase(c, st, Looked(st, user, now), user, commandId, command, id, now, t);
  }

  lemma CommandedCase(c: Settings, st: Store, l: Store, user: UserId, commandId: string, command: Command, id: Id, now: int, t: Store)
    requires SettingsOk(c) && RunsOk(c, l) && HistoriesOk(l) && Touches(st, l, user, None)
    requires t == l || (commandId !in History(l, user) && t == Acted(c, Recorded(l, user, commandId), user, command, id, now))
    ensures RunsOk(c, t) && Touches(st, t, user, Some(id)) && HistoriesOk(t)
  {
    if t != l {
      RecordedOk(l, user, commandId);
      RememberedStep(c, st, l, Recorded(l, user, commandId), user, command, id, now, t);
    }
  }

  lemma RecordedOk(l: Store, user: UserId, commandId: string)
    requires HistoriesOk(l) && commandId !in History(l, user)
    ensures HistoriesOk(Recorded(l, user, commandId))
  {
    assert HistoryOk(History(l, user));
    RememberOk(History(l, user), commandId);
  }

  lemma RememberedStep(c: Settings, st: Store, l: Store, h: Store, user: UserId, command: Command, id: Id, now: int, t: Store)
    requires SettingsOk(c) && RunsOk(c, l) && h.states == l.states && t == Acted(c, h, user, command, id, now)
    requires Touches(st, l, user, None)
    ensures RunsOk(c, t) && Touches(st, t, user, Some(id)) && t.histories == h.histories
  {
    ActedStep(c, h, user, command, id, now, t);
    assert Touches(l, t, user, Some(id));
    ThenTouches(st, l, t, user, id);
  }

  lemma CompletedStep(c: Settings, st: Store, user: UserId, ticket: Ticket, answer: Option<Outcome>, now: int, t: Store)
    requires RunsOk(c, st) && t == Completed(st, user, ticket, answer, now) && MatchesIn(st, user, ticket)
    ensures RunsOk(c, t) && Touches(st, t, user, None) && t.histories == st.histories
  {
    if Awaits(st, user, ticket) {
      var o := Verdict(answer, ticket.deadline, now);
      AnsweredSound(c.mode, st.states[user], StatusFor(o), Answer(o, now));
      PutStep(c, st, user, AnsweredRun(st.states[user], StatusFor(o), Answer(o, now)), None);
    } else {
      UntouchedStep(c, st, user, None);
    }
  }

  // ---- The engine satisfies the laws ---------------------------------------------------------------

  ghost function Real(c: Settings): Engine
    requires SettingsOk(c)
  {
    Engine((st, user, commandId, command, id: Id, now) => Commanded(c, st, user, commandId, command, id, now).store,
           (st, user, now) => Looked(st, user, now),
           (st, user, t, answer, now) => Completed(st, user, t, answer, now),
           st => RunsOk(c, st) && HistoriesOk(st))
  }

  lemma RealLawful(c: Settings)
    requires SettingsOk(c)
    ensures Lawful(Real(c))
  {
    var e := Real(c);
    forall st, user, commandId, command, id, now | e.sound(st)
      ensures Keeps(e, st, e.commanded(st, user, commandId, command, id, now), user, Some(id))
    {
      CommandedStep(c, st, user, commandId, command, id, now, e.commanded(st, user, commandId, command, id, now));
    }
    forall st, user, now | e.sound(st)
      ensures Keeps(e, st, e.looked(st, user, now), user, None)
    {
      LookedStep(c, st, user, now);
    }
    forall st, user, t, answer, now | e.sound(st) && MatchesIn(st, user, t)
      ensures Keeps(e, st, e.completed(st, user, t, answer, now), user, None)
    {
      CompletedStep(c, st, user, t, answer, now, e.completed(st, user, t, answer, now));
    }
    forall st, user, t, answer, now | !Awaits(st, user, t)
      ensures e.completed(st, user, t, answer, now) == st
    {
    }
  }

  // ---- The theorems ------------------------------------------------------------------------------

  /** Every reachable state: each run is its user's and sound, each history holds at most the last 100
      commands, all different. */
  lemma ReachableStatesAreSound(c: Settings, now: int, acts: seq<Action>, t: State, u: UserId)
    requires SettingsOk(c) && After(Real(c), Initial(now), acts) == Some(t)
    ensures u in t.store.states ==> t.store.states[u].owner == u && RunSound(c.mode, t.store.states[u])
    ensures u in t.store.histories ==> |t.store.histories[u]| <= 100 && Distinct(t.store.histories[u])
  {
    RealLawful(c);
    InitialInv(Real(c), now);
    RunKeepsInv(Real(c), Initial(now), acts, t);
    assert u in t.store.histories ==> HistoryOk(t.store.histories[u]);
  }

  /** Once nothing waits for a request's answer (it was answered, or its deadline passed, or its run is gone),
      whatever happens next, no answer to it changes anything: it is completed at most once. */
  lemma CompletedAtMostOnce(c: Settings, now: int, before: seq<Action>, s: State, x: Ticket, acts: seq<Action>, t: State, a: Action)
    requires SettingsOk(c) && After(Real(c), Initial(now), before) == Some(s) && x in s.tickets && !Awaits(s.store, x.owner, x)
    requires After(Real(c), s, acts) == Some(t) && Enabled(t, a) && a.Response? && a.ticket == x
    ensures JourneyRuns.Next(Real(c), t, a) == t
  {
    RealLawful(c);
    InitialInv(Real(c), now);
    RunKeepsInv(Real(c), Initial(now), before, s);
    if x.owner in s.store.states {
      assert RunSound(c.mode, s.store.states[x.owner]);
    }
    ClosedIffNotAwaited(Real(c), s, x);
    ClosedForever(Real(c), s, acts, t, x, a);
  }

  /** Its own answer, any message of its owner after the deadline, and the reset of its run all end the wait. */
  lemma WaitEnds(c: Settings, st: Store, x: Ticket, answer: Option<Outcome>, now: int)
    requires Awaits(st, x.owner, x) && st.states[x.owner].request.value.deadline == x.deadline
    ensures !Awaits(Completed(st, x.owner, x, answer, now), x.owner, x)
    ensures Completed(st, x.owner, x, answer, now).states[x.owner].result == Some(Verdict(answer, x.deadline, now))
    ensures now > x.deadline ==> !Awaits(Looked(st, x.owner, now), x.owner, x)
    ensures now > x.deadline ==> Looked(st, x.owner, now).states[x.owner].result == Some(NotAvailable)
    ensures now <= x.deadline ==> Looked(st, x.owner, now) == st
    ensures !Awaits(ResetFor(st, x.owner, x.run).store, x.owner, x)
  {
    assert now <= x.deadline ==> st.states[x.owner := st.states[x.owner]] == st.states;
  }

  /** In every reachable state: a run that talks to the service and ended as success got that answer, and it
      was processed by the deadline. */
  lemma NoLateSuccess(c: Settings, now: int, acts: seq<Action>, t: State, u: UserId)
    requires SettingsOk(c) && After(Real(c), Initial(now), acts) == Some(t) && u in t.store.states
    requires t.store.states[u].mode == HttpSample && t.store.states[u].result == Some(Success)
    ensures var q := t.store.states[u].request;
            q.Some? && q.value.answer.Some? && q.value.answer.value.outcome == Success && q.value.answer.value.at <= q.value.deadline
  {
    ReachableStatesAreSound(c, now, acts, t, u);
    SuccessIsAnswered(c.mode, t.store.states[u]);
  }

  lemma SuccessIsAnswered(mode: Mode, r: Journey.Run)
    requires RunSound(mode, r) && r.mode == HttpSample && r.result == Some(Success)
    ensures r.request.Some? && r.request.value.answer.Some? && r.request.value.answer.value.outcome == Success
    ensures r.request.value.answer.value.at <= r.request.value.deadline
  {
    if r.plan.Classic? {
      assert r.plan.scenario.stopStep.None?;
    } else {
      assert r.plan.spec.resource.None?;
    }
  }

  /** In every reachable state a classic run with stop step k that has ended shows Pass before k, the failure at k,
      Skipped after it, and the scenario's result; one that has not ended has passed every step so far. */
  lemma StopsWhereItShould(c: Settings, now: int, acts: seq<Action>, t: State, u: UserId, k: nat)
    requires SettingsOk(c) && After(Real(c), Initial(now), acts) == Some(t) && u in t.store.states
    requires t.store.states[u].plan.Classic? && t.store.states[u].plan.scenario.stopStep == Some(k)
    ensures var r := t.store.states[u];
            && 1 < k <= CHECKS == |r.checks| && r.activeStep <= k && (r.terminal <==> r.activeStep == k)
            && (forall i :: 0 <= i < r.activeStep && i < k - 1 ==> r.checks[i] == Pass)
            && (r.terminal ==> r.checks[k - 1] == r.plan.scenario.failStatus && r.result == Some(r.plan.scenario.result))
            && (forall i :: k <= i < CHECKS ==> r.checks[i] == if r.terminal then Skipped else NotEvaluated)
  {
    ReachableStatesAreSound(c, now, acts, t, u);
  }

  /** Between any two points of any run: a run that is still there has not gone back, and if it had ended it is
      exactly as it was. */
  lemma RunsOnlyGoForward(c: Settings, now: int, before: seq<Action>, s: State, acts: seq<Action>, t: State, u: UserId)
    requires SettingsOk(c) && After(Real(c), Initial(now), before) == Some(s) && After(Real(c), s, acts) == Some(t)
    requires u in s.store.states && u in t.store.states && t.store.states[u].id == s.store.states[u].id
    ensures Later(s.store.states[u], t.store.states[u])
  {
    RealLawful(c);
    InitialInv(Real(c), now);
    RunKeepsInv(Real(c), Initial(now), before, s);
    RunGoesForward(Real(c), s, acts, t, u);
  }

  /** An accepted `next` takes exactly one step of the steps that are left. */
  lemma AcceptedNextTakesAStep(c: Settings, st: Store, user: UserId, commandId: string, run: Id, id: Id, now: int)
    requires SettingsOk(c) && RunsOk(c, st) && Commanded(c, st, user, commandId, Command.Next(run), id, now).reply == Done
    ensures var t := Commanded(c, st, user, commandId, Command.Next(run), id, now).store;
            && user in st.states && user in t.states && t.states[user].plan == st.states[user].plan
            && t.states[user].activeStep == st.states[user].activeStep + 1 <= Steps(st.states[user].plan)
  {
    var l := Looked(st, user, now);
    LookedStep(c, st, user, now);
    AcceptedNextIs(c, l, user, commandId, run, id, now);
    var r := l.states[user];
    AdvancedMoves(c.mode, r, id, now + c.flowDeadline);
    AdvancedSound(c.mode, r, id, now + c.flowDeadline);
  }

  lemma AcceptedNextIs(c: Settings, l: Store, user: UserId, commandId: string, run: Id, id: Id, now: int)
    requires CommandOk(c, l, user, commandId) == Done
    requires AdvancedFor(c, Recorded(l, user, commandId), user, run, id, now).reply == Done
    ensures user in l.states && CanAdvance(l.states[user])
  {
  }
}
