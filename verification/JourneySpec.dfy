/**
 What each message and each service answer does to a user's run, said outright, and when a run with the service
 ends as success.
 */
module JourneySpec {
  import opened Text
  import opened Journey
  import opened JourneyRun
  import opened JourneyRuns
  import opened JourneyTheorems

  // ---- The service's answer ------------------------------------------------------------------------

  /** The user's run waits for the answer to this ticket. */
  ghost predicate WaitsFor(st: Store, user: UserId, x: Ticket)
  {
    && x.owner == user && user in st.states
    && var r := st.states[user];
       && r.owner == user && r.id == x.run && r.mode == HttpSample
       && r.request.Some? && r.request.value.id == x.request && r.request.value.answer.None?
  }

  /** The run has ended with this outcome, shown in its last check, and nothing else about it has changed. */
  ghost predicate EndsAs(r: Run, t: Run, o: Outcome, last: Status, now: int)
  {
    && r.request.Some? && r.checks != [] && |t.checks| == |r.checks|
    && t == r.(checks := t.checks, result := Some(o), terminal := true, events := r.events + [RunCompleted],
               request := Some(r.request.value.(answer := Some(Answer(o, now)))))
    && t.checks[|t.checks| - 1] == last && t.checks[..|t.checks| - 1] == r.checks[..|r.checks| - 1]
  }

  ghost predicate OnlyRunChanged(st: Store, t: Store, user: UserId)
  {
    && t.histories == st.histories && user in t.states && t.states.Keys == st.states.Keys + {user}
    && forall u :: u in st.states && u != user ==> t.states[u] == st.states[u]
  }

  /** An answer that is awaited and comes by the deadline ends the run as it says; a missing or ill-formed one ends
      it with an error, and a late one as unavailable.  Any other answer changes nothing. */
  lemma AnswerMeans(st: Store, user: UserId, x: Ticket, answer: Option<Outcome>, now: int)
    requires user in st.states ==> st.states[user].checks != []
    ensures var t := Completed(st, user, x, answer, now);
            if !WaitsFor(st, user, x) then t == st
            else
              && OnlyRunChanged(st, t, user)
              && (now <= x.deadline && answer == Some(Success) ==> EndsAs(st.states[user], t.states[user], Success, Pass, now))
              && (now <= x.deadline && answer == Some(Denied) ==> EndsAs(st.states[user], t.states[user], Denied, Fail, now))
              && (now <= x.deadline && answer == Some(NotAvailable) ==> EndsAs(st.states[user], t.states[user], NotAvailable, Unavailable, now))
              && (now <= x.deadline && answer == Some(Error) ==> EndsAs(st.states[user], t.states[user], Error, Errored, now))
              && (now <= x.deadline && answer == Some(Failure) ==> EndsAs(st.states[user], t.states[user], Error, Errored, now))
              && (now <= x.deadline && answer == None ==> EndsAs(st.states[user], t.states[user], Error, Errored, now))
              && (now > x.deadline ==> EndsAs(st.states[user], t.states[user], NotAvailable, Unavailable, now))
  {
  }

  /** Any message, and any look at the run, ends a pending request whose deadline has passed as unavailable, and
      changes nothing otherwise. */
  lemma DeadlineMeans(st: Store, user: UserId, now: int)
    requires user in st.states ==> st.states[user].checks != []
    ensures var t := Looked(st, user, now);
            if user in st.states && st.states[user].request.Some? && st.states[user].request.value.answer.None?
               && st.states[user].request.value.deadline < now
            then OnlyRunChanged(st, t, user) && EndsAs(st.states[user], t.states[user], NotAvailable, Unavailable, now)
            else t == st
  {
    if user in st.states && Expired(st.states[user], now) == st.states[user] {
      assert st.states[user := st.states[user]] == st.states;
    }
  }

  // ---- Success with the service --------------------------------------------------------------------

  /** The action with index i was the answer "success" to ticket x of user u, awaited and by its deadline. */
  ghost predicate SucceedsAt(c: Settings, start: State, acts: seq<Action>, i: nat, u: UserId, x: Ticket)
    requires SettingsOk(c)
  {
    && i < |acts| && acts[i] == Response(u, x, Some(Success)) && After(Real(c), start, acts[..i]).Some?
    && var m := After(Real(c), start, acts[..i]).value; WaitsFor(m.store, u, x) && m.now <= x.deadline
  }

  /** The run talks to the service and has ended as success. */
  ghost predicate Delivered(r: Journey.Run)
  {
    r.mode == HttpSample && r.result == Some(Success)
  }

  ghost predicate SuccessTraced(c: Settings, start: State, acts: seq<Action>, s: State)
    requires SettingsOk(c)
  {
    forall u :: u in s.store.states && Delivered(s.store.states[u]) ==>
      exists i: nat, x :: SucceedsAt(c, start, acts, i, u, x) && x.run == s.store.states[u].id
  }

  lemma {:induction false} AfterSnoc(e: Engine, s: State, acts: seq<Action>, t: State, a: Action)
    requires After(e, s, acts) == Some(t) && Enabled(t, a)
    ensures After(e, s, acts + [a]) == Some(JourneyRuns.Next(e, t, a))
    decreases |acts|
  {
    if acts == [] {
      assert After(e, JourneyRuns.Next(e, s, a), []) == Some(JourneyRuns.Next(e, s, a));
    } else {
      assert (acts + [a])[1..] == acts[1..] + [a];
      AfterSnoc(e, JourneyRuns.Next(e, s, acts[0]), acts[1..], t, a);
    }
  }

  lemma SucceedsLonger(c: Settings, start: State, acts: seq<Action>, a: Action, i: nat, u: UserId, x: Ticket)
    requires SettingsOk(c) && SucceedsAt(c, start, acts, i, u, x)
    ensures SucceedsAt(c, start, acts + [a], i, u, x)
  {
    assert (acts + [a])[..i] == acts[..i];
  }

  /** A run of a sound store that ended as success with the service was answered so. */
  lemma DeliveredHasAnswer(c: Settings, st: Store, u: UserId)
    requires RunsOk(c, st) && u in st.states && Delivered(st.states[u])
    ensures st.states[u].request.Some? && st.states[u].request.value.answer.Some?
    ensures st.states[u].request.value.answer.value.outcome == Success
  {
    SuccessIsAnswered(c.mode, st.states[u]);
  }

  /** A message delivers no success with the service. */
  lemma MessageDeliversNothing(c: Settings, st: Store, user: UserId, commandId: string, command: Command, id: Id, now: int)
    requires SettingsOk(c) && RunsOk(c, st) && HistoriesOk(st)
    ensures var t := Commanded(c, st, user, commandId, command, id, now).store;
            user in t.states && Delivered(t.states[user]) ==> user in st.states && t.states[user] == st.states[user]
  {
    var l := Looked(st, user, now);
    var t := Commanded(c, st, user, commandId, command, id, now).store;
    LookedStep(c, st, user, now);
    CommandedStep(c, st, user, commandId, command, id, now, t);
    CommandedIs(c, st, user, commandId, command, id, now);
    if user in t.states && Delivered(t.states[user]) {
      DeliveredHasAnswer(c, t, user);
      if t != l {
        ActedDeliversNothing(c, Recorded(l, user, commandId), user, command, id, now);
      }
    }
  }

  lemma ActedDeliversNothing(c: Settings, st: Store, user: UserId, command: Command, id: Id, now: int)
    requires SettingsOk(c) && RunsOk(c, st)
    ensures var t := Acted(c, st, user, command, id, now);
            user in t.states && t.states[user].request.Some? && t.states[user].request.value.answer.Some? ==>
              user in st.states && t.states[user] == st.states[user]
  {
    if command.Start? {
      StartedForIs(c, st, user, command.data, id);
      if Resolve(c, command.data).Found? {
        StartedSound(user, id, Resolve(c, command.data).plan, c.mode);
      }
    } else if command.Next? {
      AdvancedForIs(c, st, user, command.run, id, now);
      if user in st.states && CanAdvance(st.states[user]) {
        AdvancedSound(c.mode, st.states[user], id, now + c.flowDeadline);
        AdvancedMoves(c.mode, st.states[user], id, now + c.flowDeadline);
      }
    }
  }

  lemma StepTraced(c: Settings, start: State, acts: seq<Action>, s: State, a: Action)
    requires SettingsOk(c) && RunsOk(c, s.store) && HistoriesOk(s.store)
    requires After(Real(c), start, acts) == Some(s) && SuccessTraced(c, start, acts, s) && Enabled(s, a)
    ensures SuccessTraced(c, start, acts + [a], JourneyRuns.Next(Real(c), s, a))
  {
    var t := JourneyRuns.Next(Real(c), s, a);
    forall u | u in t.store.states && Delivered(t.store.states[u])
      ensures exists i: nat, x :: SucceedsAt(c, start, acts + [a], i, u, x) && x.run == t.store.states[u].id
    {
      if u in s.store.states && t.store.states[u] == s.store.states[u] {
        var i: nat, x :| SucceedsAt(c, start, acts, i, u, x) && x.run == s.store.states[u].id;
        SucceedsLonger(c, start, acts, a, i, u, x);
      } else {
        OnlyAnswersDeliver(c, s, a, u);
        assert (acts + [a])[..|acts|] == acts;
        assert SucceedsAt(c, start, acts + [a], |acts|, u, a.ticket);
      }
    }
  }

  /** Only the awaited answer "success" by the deadline makes a run delivered that was not. */
  lemma OnlyAnswersDeliver(c: Settings, s: State, a: Action, u: UserId)
    requires SettingsOk(c) && RunsOk(c, s.store) && HistoriesOk(s.store) && Enabled(s, a)
    requires var t := JourneyRuns.Next(Real(c), s, a);
             u in t.store.states && Delivered(t.store.states[u]) && !(u in s.store.states && t.store.states[u] == s.store.states[u])
    ensures a.Response? && a.user == u && a.answer == Some(Success) && WaitsFor(s.store, u, a.ticket) && s.now <= a.ticket.deadline
    ensures a.ticket.run == JourneyRuns.Next(Real(c), s, a).store.states[u].id
  {
    if a.Message? {
      CommandedStep(c, s.store, a.user, a.commandId, a.command, a.id, s.now, JourneyRuns.Next(Real(c), s, a).store);
      MessageDeliversNothing(c, s.store, a.user, a.commandId, a.command, a.id, s.now);
    } else if a.StatusRead? {
      DeadlineMeans(s.store, a.user, s.now);
    } else if a.Response? {
      AnswerMeans(s.store, a.user, a.ticket, a.answer, s.now);
    }
  }

  lemma {:induction false} Along(e: Engine, before: seq<Action>, s: State, acts: seq<Action>, t: State, p: (seq<Action>, State) -> bool)
    requires p(before, s) && After(e, s, acts) == Some(t)
    requires forall m, x, a :: Enabled(x, a) && p(m, x) ==> p(m + [a], JourneyRuns.Next(e, x, a))
    ensures p(before + acts, t)
    decreases |acts|
  {
    if acts == [] {
      assert before + acts == before;
    } else {
      Along(e, before + [acts[0]], JourneyRuns.Next(e, s, acts[0]), acts[1..], t, p);
      assert before + [acts[0]] + acts[1..] == before + acts;
    }
  }

  ghost predicate Traced(c: Settings, start: State, acts: seq<Action>, s: State)
    requires SettingsOk(c)
  {
    Inv(Real(c), s) && After(Real(c), start, acts) == Some(s) && SuccessTraced(c, start, acts, s)
  }

  lemma TracedStep(c: Settings, start: State, acts: seq<Action>, s: State, a: Action)
    requires SettingsOk(c) && Traced(c, start, acts, s) && Enabled(s, a)
    ensures Traced(c, start, acts + [a], JourneyRuns.Next(Real(c), s, a))
  {
    RealLawful(c);
    StepTraced(c, start, acts, s, a);
    AfterSnoc(Real(c), start, acts, s, a);
    NextKeepsInv(Real(c), s, a);
  }

  lemma RunTraced(c: Settings, start: State, acts: seq<Action>, t: State)
    requires SettingsOk(c) && Traced(c, start, [], start) && After(Real(c), start, acts) == Some(t)
    ensures SuccessTraced(c, start, acts, t)
  {
    forall m, x, a | Enabled(x, a) && Traced(c, start, m, x)
      ensures Traced(c, start, m + [a], JourneyRuns.Next(Real(c), x, a))
    {
      TracedStep(c, start, m, x, a);
    }
    Along(Real(c), [], start, acts, t, (m, x) => Traced(c, start, m, x));
    assert [] + acts == acts;
  }

  lemma {:induction false} AfterSplit(e: Engine, s: State, acts: seq<Action>, t: State, i: nat)
    requires After(e, s, acts) == Some(t) && i <= |acts|
    ensures After(e, s, acts[..i]).Some? && After(e, After(e, s, acts[..i]).value, acts[i..]) == Some(t)
    decreases |acts|
  {
    if i == 0 {
      assert acts[..i] == [] && acts[i..] == acts;
    } else {
      assert acts[..i][0] == acts[0] && acts[..i][1..] == acts[1..][..i - 1] && acts[i..] == acts[1..][i - 1..];
      AfterSplit(e, JourneyRuns.Next(e, s, acts[0]), acts[1..], t, i - 1);
    }
  }

  /** Over every run of the engine: a run of a user that talks to the service has ended as success if and only if
      the answer "success" to its own request came while it waited, by its deadline. */
  lemma DeliveredIff(c: Settings, now: int, acts: seq<Action>, t: State, u: UserId)
    requires SettingsOk(c) && After(Real(c), Initial(now), acts) == Some(t) && u in t.store.states
    ensures t.store.states[u].mode == HttpSample && t.store.states[u].result == Some(Success) <==>
            exists i: nat, x :: SucceedsAt(c, Initial(now), acts, i, u, x) && x.run == t.store.states[u].id
  {
    RealLawful(c);
    InitialInv(Real(c), now);
    RunTraced(c, Initial(now), acts, t);
    if i: nat, x :| SucceedsAt(c, Initial(now), acts, i, u, x) && x.run == t.store.states[u].id {
      SucceededStays(c, now, acts, t, u, i, x);
    }
  }

  lemma SucceededStays(c: Settings, now: int, acts: seq<Action>, t: State, u: UserId, i: nat, x: Ticket)
    requires SettingsOk(c) && After(Real(c), Initial(now), acts) == Some(t) && u in t.store.states
    requires SucceedsAt(c, Initial(now), acts, i, u, x) && x.run == t.store.states[u].id
    ensures Delivered(t.store.states[u])
  {
    RealLawful(c);
    InitialInv(Real(c), now);
    AfterSplit(Real(c), Initial(now), acts, t, i);
    var m := After(Real(c), Initial(now), acts[..i]).value;
    RunKeepsInv(Real(c), Initial(now), acts[..i], m);
    var n := JourneyRuns.Next(Real(c), m, acts[i]);
    assert acts[i..][0] == acts[i] && acts[i..][1..] == acts[i + 1..];
    AnswerMeans(m.store, u, x, Some(Success), m.now);
    NextKeepsInv(Real(c), m, acts[i]);
    RunGoesForward(Real(c), n, acts[i + 1..], t, u);
  }

  // ---- Commands ------------------------------------------------------------------------------------

  /** The user's request is still pending after its deadline; any message applies that first. */
  predicate Overdue(st: Store, user: UserId, now: int)
  {
    && user in st.states && st.states[user].request.Some? && st.states[user].request.value.answer.None?
    && st.states[user].request.value.deadline < now
  }

  /** The last hundred of the old commands and the new one. */
  ghost predicate Remembers(before: seq<string>, after: seq<string>, commandId: string)
  {
    exists dropped :: before + [commandId] == dropped + after && |after| <= 100 && (dropped == [] || |after| == 100)
  }

  /** The variant a start asks for: the one it names, else "rule-deny" where there are variants. */
  ghost predicate Selects(def: Definition, asked: Option<string>, variant: Option<string>)
  {
    variant in def.specs && variant == (if asked.Some? then asked else if def.variants != [] then Some("rule-deny") else None)
  }

  ghost predicate Named(c: Settings, asked: string, name: string)
  {
    if asked in c.aliases then name == c.aliases[asked] else name == asked
  }

  ghost predicate ProfileFits(def: Definition, d: StartData, variant: Option<string>)
    requires DefinitionOk(def) && variant in def.specs
  {
    d.profile.Some? ==> d.profile.value == def.profiles[variant]
  }

  /** The scenario a start asks for, with all that it names in order. */
  ghost predicate Chooses(c: Settings, d: StartData, plan: Plan)
    requires SettingsOk(c)
  {
    if d.scenario in c.atlas then
      exists variant ::
        && Selects(c.atlas[d.scenario], d.variant, variant) && ProfileFits(c.atlas[d.scenario], d, variant)
        && d.credentialOk && d.serviceOk && plan == Atlas(c.atlas[d.scenario].specs[variant])
    else exists name :: Named(c, d.scenario, name) && name in c.classic && d.serviceOk && plan == Classic(c.classic[name])
  }

  /** What is wrong with a start that is refused, the first thing in order. */
  ghost predicate WrongWith(c: Settings, d: StartData, code: Code)
    requires SettingsOk(c)
  {
    if d.scenario in c.atlas then
      var def := c.atlas[d.scenario];
      match code
      case InvalidVariant => forall variant :: !Selects(def, d.variant, variant)
      case InvalidProfile => exists variant :: Selects(def, d.variant, variant) && !ProfileFits(def, d, variant)
      case InvalidCredential => (exists variant :: Selects(def, d.variant, variant) && ProfileFits(def, d, variant)) && !d.credentialOk
      case InvalidServiceScenario =>
        (exists variant :: Selects(def, d.variant, variant) && ProfileFits(def, d, variant)) && d.credentialOk && !d.serviceOk
      case _ => false
    else
      match code
      case InvalidScenario => forall name :: Named(c, d.scenario, name) ==> name !in c.classic
      case InvalidServiceScenario => (exists name :: Named(c, d.scenario, name) && name in c.classic) && !d.serviceOk
      case _ => false
  }

  /** A run that has just started. */
  ghost predicate NewRun(c: Settings, r: Journey.Run, user: UserId, id: Id, plan: Plan)
  {
    && RunSound(c.mode, r) && r.owner == user && r.id == id && r.plan == plan && r.request.None?
    && r.activeStep == (if plan.Classic? then 1 else plan.spec.first + 1)
  }

  /** What a start makes of the runs, and what is replied. */
  ghost predicate StartAnswers(c: Settings, runs: map<UserId, Journey.Run>, user: UserId, d: StartData, id: Id, reply: Reply, after: map<UserId, Journey.Run>)
    requires SettingsOk(c)
  {
    if user in runs && runs[user].result.None? then reply == Refused(RunInProgress) && after == runs
    else if reply == Done then exists plan, r :: Chooses(c, d, plan) && NewRun(c, r, user, id, plan) && after == runs[user := r]
    else WrongWith(c, d, reply.code) && after == runs
  }

  ghost predicate ResetAnswers(runs: map<UserId, Journey.Run>, user: UserId, run: Id, reply: Reply, after: map<UserId, Journey.Run>)
  {
    if user in runs && runs[user].id != run then reply == Refused(StaleRun) && after == runs
    else reply == Done && after == runs - {user}
  }

  /** This step is the last one, and it is the service that is to answer it. */
  ghost predicate AsksService(c: Settings, r: Journey.Run)
  {
    && r.activeStep + 1 == Steps(r.plan)
    && if r.plan.Classic? then c.mode == HttpSample && r.plan.scenario.stopStep != Some(r.activeStep + 1)
       else r.mode == HttpSample && r.plan.spec.result == Success
  }

  ghost predicate NextAnswers(c: Settings, runs: map<UserId, Journey.Run>, user: UserId, run: Id, id: Id, now: int, reply: Reply, after: map<UserId, Journey.Run>)
  {
    if user !in runs then reply == Refused(NoActiveRun) && after == runs
    else
      var r := runs[user];
      if r.id != run then reply == Refused(StaleRun) && after == runs
      else if r.terminal then reply == Refused(InvalidTransition) && after == runs
      else if r.request.Some? then reply == Refused(RequestInProgress) && after == runs
      else reply == Done && exists t :: StepsTo(c, r, t, id, now) && after == runs[user := t]
  }

  /** One step: the run stays the user's, is sound, and has one step more behind it; the last one may be a request
      with a deadline. */
  ghost predicate StepsTo(c: Settings, r: Journey.Run, t: Journey.Run, id: Id, now: int)
  {
    && RunSound(c.mode, t) && t.owner == r.owner && t.id == r.id && t.plan == r.plan && t.activeStep == r.activeStep + 1
    && r.feed <= t.feed && r.events <= t.events
    && t.request == (if AsksService(c, r) then Some(Request(id, now + c.flowDeadline, None)) else None)
    && if r.plan.Atlas? && !AsksService(c, r) && r.activeStep < |r.plan.spec.steps| then Published(r.feed, t.feed, r.plan.spec.steps[r.activeStep])
       else t.feed == r.feed
  }

  /** The feed has the step's events more: of its source, numbered on from the source's last one. */
  ghost predicate Published(feed: seq<FeedEvent>, more: seq<FeedEvent>, step: Step)
  {
    && |more| == |feed| + step.count && feed <= more
    && forall k :: |feed| <= k < |more| ==> more[k] == FeedEvent(step.source, |NumbersOf(feed, step.source)| + k - |feed|)
  }

  ghost predicate Acts(c: Settings, runs: map<UserId, Journey.Run>, user: UserId, command: Command, id: Id, now: int, reply: Reply, after: map<UserId, Journey.Run>)
    requires SettingsOk(c)
  {
    match command
    case Start(d) => StartAnswers(c, runs, user, d, id, reply, after)
    case Reset(run) => ResetAnswers(runs, user, run, reply, after)
    case Next(run) => NextAnswers(c, runs, user, run, id, now, reply, after)
  }

  ghost predicate CommandAnswers(c: Settings, st: Store, user: UserId, commandId: string, command: Command, id: Id, now: int, h: Handled)
    requires SettingsOk(c)
  {
    var before := if user in st.histories then st.histories[user] else [];
    if c.broken then h == Handled(st, Refused(AdapterError))
    else if |commandId| < 1 || |commandId| > 120 then h == Handled(st, Refused(ValidationFailed))
    else if commandId in before then h == Handled(st, Refused(DuplicateCommand))
    else
      && user in h.store.histories && Remembers(before, h.store.histories[user], commandId)
      && h.store.histories == st.histories[user := h.store.histories[user]]
      && Acts(c, st.states, user, command, id, now, h.reply, h.store.states)
  }

  /** A message to a user whose request is overdue acts on the run that has ended for it. */
  lemma DeadlineFirst(c: Settings, st: Store, user: UserId, commandId: string, command: Command, id: Id, now: int)
    requires SettingsOk(c)
    ensures Commanded(c, st, user, commandId, command, id, now) == Commanded(c, Looked(st, user, now), user, commandId, command, id, now)
    ensures !Overdue(Looked(st, user, now), user, now)
  {
    assert user in st.states ==> Looked(Looked(st, user, now), user, now).states == Looked(st, user, now).states;
  }

  lemma StartMeans(c: Settings, st: Store, user: UserId, d: StartData, id: Id)
    requires SettingsOk(c)
    ensures var h := StartedFor(c, st, user, d, id); StartAnswers(c, st.states, user, d, id, h.reply, h.store.states)
  {
    var r := Resolve(c, d);
    ResolveMeans(c, d);
    if r.Found? {
      StartedSound(user, id, r.plan, c.mode);
      StartedAt(user, id, r.plan, c.mode);
      assert NewRun(c, Started(user, id, r.plan, c.mode), user, id, r.plan);
    }
  }

  lemma StartedAt(user: UserId, id: Id, plan: Plan, mode: Mode)
    requires PlanOk(plan)
    ensures Started(user, id, plan, mode).plan == plan
    ensures Started(user, id, plan, mode).activeStep == if plan.Classic? then 1 else plan.spec.first + 1
  {
    if plan.Atlas? {
      var e := StartedDone(user, id, plan.spec, mode);
    }
  }

  lemma ResolveMeans(c: Settings, d: StartData)
    requires SettingsOk(c)
    ensures var r := Resolve(c, d); if r.Found? then Chooses(c, d, r.plan) else WrongWith(c, d, r.code)
  {
    if d.scenario in c.atlas {
      ResolveAtlasMeans(c.atlas[d.scenario], d);
      var r := ResolveAtlas(c.atlas[d.scenario], d);
      assert Resolve(c, d) == r;
      assert r.Found? ==> Chooses(c, d, r.plan);
    } else {
      var name := if d.scenario in c.aliases then c.aliases[d.scenario] else d.scenario;
      assert Named(c, d.scenario, name);
    }
  }

  lemma ResolveAtlasMeans(def: Definition, d: StartData)
    requires DefinitionOk(def)
    ensures var r := ResolveAtlas(def, d);
            match r
            case Found(plan) =>
              exists variant :: Selects(def, d.variant, variant) && ProfileFits(def, d, variant)
                && d.credentialOk && d.serviceOk && plan == Atlas(def.specs[variant])
            case Unknown(code) =>
              match code
              case InvalidVariant => forall variant :: !Selects(def, d.variant, variant)
              case InvalidProfile => exists variant :: Selects(def, d.variant, variant) && !ProfileFits(def, d, variant)
              case InvalidCredential => (exists variant :: Selects(def, d.variant, variant) && ProfileFits(def, d, variant)) && !d.credentialOk
              case InvalidServiceScenario =>
                (exists variant :: Selects(def, d.variant, variant) && ProfileFits(def, d, variant)) && d.credentialOk && !d.serviceOk
              case _ => false
  {
    var variant := if d.variant.Some? then d.variant else if def.variants != [] then Some("rule-deny") else None;
    if variant in def.specs {
      assert Selects(def, d.variant, variant);
    }
  }

  lemma NextMeans(c: Settings, st: Store, user: UserId, run: Id, id: Id, now: int)
    requires SettingsOk(c) && RunsOk(c, st)
    ensures var h := AdvancedFor(c, st, user, run, id, now); NextAnswers(c, st.states, user, run, id, now, h.reply, h.store.states)
  {
    if user in st.states {
      var r := st.states[user];
      assert RunSound(c.mode, r);
      if CanAdvance(r) {
        StepMeans(c, r, id, now);
      }
    }
  }

  lemma {:induction false} EmittedPublishes(r: Journey.Run, step: Step, count: nat)
    requires Numbered(r)
    ensures Published(r.feed, Emitted(r, step.source, count).feed, step.(count := count))
    ensures Issued(Emitted(r, step.source, count).sequences, step.source) == |NumbersOf(r.feed, step.source)| + count
  {
    assert NumbersOf(r.feed, step.source) == Upto(Issued(r.sequences, step.source));
    if count > 0 {
      EmittedPublishes(r, step, count - 1);
    }
  }

  lemma AtlasPublishes(c: Settings, r: Journey.Run, id: Id, deadline: int)
    requires RunSound(c.mode, r) && CanAdvance(r) && r.plan.Atlas?
    ensures var t := Advanced(c.mode, r, id, deadline);
            if AsksService(c, r) then t.feed == r.feed else Published(r.feed, t.feed, r.plan.spec.steps[r.activeStep])
  {
    var i := r.activeStep;
    EmittedPublishes(r.(activeStep := i + 1, checks := r.checks[i := r.plan.spec.steps[i].verdict]), r.plan.spec.steps[i], r.plan.spec.steps[i].count);
  }

  lemma StepMeans(c: Settings, r: Journey.Run, id: Id, now: int)
    requires RunSound(c.mode, r) && CanAdvance(r)
    ensures StepsTo(c, r, Advanced(c.mode, r, id, now + c.flowDeadline), id, now)
  {
    AdvancedSound(c.mode, r, id, now + c.flowDeadline);
    AdvancedMoves(c.mode, r, id, now + c.flowDeadline);
    if r.plan.Atlas? {
      EvaluatedKeeps(r, r.plan.spec.steps[r.activeStep], r.activeStep);
      AtlasPublishes(c, r, id, now + c.flowDeadline);
    }
  }

  /** The command itself, when it is accepted into the history. */
  function ActedOn(c: Settings, st: Store, user: UserId, command: Command, id: Id, now: int): Handled
    requires SettingsOk(c)
  {
    match command
    case Start(d) => StartedFor(c, st, user, d, id)
    case Reset(run) => ResetFor(st, user, run)
    case Next(run) => AdvancedFor(c, st, user, run, id, now)
  }

  lemma ActsMeans(c: Settings, st: Store, user: UserId, command: Command, id: Id, now: int)
    requires SettingsOk(c) && RunsOk(c, st)
    ensures var h := ActedOn(c, st, user, command, id, now);
            Acts(c, st.states, user, command, id, now, h.reply, h.store.states) && h.store.histories == st.histories
  {
    if command.Start? {
      StartMeans(c, st, user, command.data, id);
    } else if command.Next? {
      NextMeans(c, st, user, command.run, id, now);
    } else if user !in st.states {
      assert st.states - {user} == st.states;
    }
  }

  lemma CommandedParts(c: Settings, st: Store, user: UserId, commandId: string, command: Command, id: Id, now: int)
    requires SettingsOk(c) && Looked(st, user, now) == st
    ensures Commanded(c, st, user, commandId, command, id, now) ==
            if c.broken then Handled(st, Refused(AdapterError))
            else if |commandId| < 1 || |commandId| > 120 then Handled(st, Refused(ValidationFailed))
            else if commandId in History(st, user) then Handled(st, Refused(DuplicateCommand))
            else ActedOn(c, Recorded(st, user, commandId), user, command, id, now)
  {
  }

  /** Every command is answered exactly so: with the first refusal that is due, or by the change it asks for. */
  lemma CommandMeans(c: Settings, st: Store, user: UserId, commandId: string, command: Command, id: Id, now: int)
    requires SettingsOk(c) && RunsOk(c, st) && !Overdue(st, user, now)
    ensures CommandAnswers(c, st, user, commandId, command, id, now, Commanded(c, st, user, commandId, command, id, now))
  {
    if user in st.states {
      assert RunSound(c.mode, st.states[user]);
    }
    DeadlineMeans(st, user, now);
    CommandedParts(c, st, user, commandId, command, id, now);
    RememberMeans(History(st, user), commandId);
    ActsMeans(c, Recorded(st, user, commandId), user, command, id, now);
  }

  lemma RememberMeans(h: seq<string>, commandId: string)
    ensures Remembers(h, Remember(h, commandId), commandId)
  {
    var n := h + [commandId];
    if |n| > 100 {
      assert n == n[..|n| - 100] + n[|n| - 100..];
    } else {
      assert n == [] + n;
    }
  }
}
