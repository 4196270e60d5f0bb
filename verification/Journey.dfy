/**
 The journey engine: one run per user, moved by commands, by the answer of the participant service and by
 the deadline of a pending request.  Runs are values; the engine's two Maps are the fields of a class.
 */
module Journey {
  import opened Text

  type UserId = string
  type Id = nat
  type Source = string

  datatype Status = NotEvaluated | Pass | Fail | Unavailable | Errored | Pending | Skipped

  datatype Outcome = Success | Failure | Denied | NotAvailable | Error

  datatype Mode = Fixture | HttpSample

  datatype Event = RunStarted | StepCompleted | CheckFailed | RunCompleted

  datatype FeedEvent = FeedEvent(source: Source, number: nat)

  const CHECKS := 6

  /** A classic scenario: six checks, failing at stopStep if there is one. */
  datatype Scenario = Scenario(stopStep: Option<nat>, failStatus: Status, result: Outcome)

  /** A step of an atlas scenario: its verdict and how many feed events of its source it publishes. */
  datatype Step = Step(source: Source, verdict: Status, count: nat, skip: bool)

  /** An atlas scenario with its variant applied: `first` is the step evaluated at the start, and
      `resource` the result of the local resource evaluation, for scenarios that end with one. */
  datatype Spec = Spec(steps: seq<Step>, first: nat, result: Outcome, resource: Option<Outcome>)

  datatype Plan = Classic(scenario: Scenario) | Atlas(spec: Spec)

  datatype Answer = Answer(outcome: Outcome, at: int)

  /** The final service request; it is pending until it has an answer. */
  datatype Request = Request(id: Id, deadline: int, answer: Option<Answer>)

  datatype Run = Run(
    owner: UserId,
    id: Id,
    plan: Plan,
    mode: Mode,
    activeStep: nat,
    checks: seq<Status>,
    terminal: bool,
    result: Option<Outcome>,
    request: Option<Request>,
    events: seq<Event>,
    sequences: map<Source, nat>,
    feed: seq<FeedEvent>)

  /** What is fixed while the engine runs: the catalogue and the adapter configuration. */
  datatype Settings = Settings(
    classic: map<string, Scenario>,
    aliases: map<string, string>,
    atlas: map<string, Definition>,
    mode: Mode,
    broken: bool,
    flowDeadline: nat)

  /** An atlas scenario as the catalogue has it: for each variant (None when it has none) its spec and profile. */
  datatype Definition = Definition(variants: seq<string>, specs: map<Option<string>, Spec>, profiles: map<Option<string>, string>)

  datatype StartData = StartData(scenario: string, variant: Option<string>, profile: Option<string>, serviceOk: bool, credentialOk: bool)

  datatype Command = Start(data: StartData) | Reset(run: Id) | Next(run: Id)

  datatype Code =
    | RunInProgress | InvalidVariant | InvalidProfile | InvalidCredential | InvalidServiceScenario | InvalidScenario
    | StaleRun | NoActiveRun | InvalidTransition | RequestInProgress
    | ValidationFailed | DuplicateCommand | AdapterError

  datatype Reply = Done | Refused(code: Code)

  datatype Store = Store(states: map<UserId, Run>, histories: map<UserId, seq<string>>)

  datatype Handled = Handled(store: Store, reply: Reply)

  /** What the continuation of a request carries. */
  datatype Ticket = Ticket(owner: UserId, run: Id, request: Id, deadline: int)

  // ---- One run -----------------------------------------------------------------------------------

  predicate IsPending(r: Run)
  {
    r.request.Some? && r.request.value.answer.None?
  }

  function Steps(p: Plan): nat
  {
    if p.Classic? then CHECKS else |p.spec.steps|
  }

  function SetLast(checks: seq<Status>, s: Status): seq<Status>
  {
    if checks == [] then [] else checks[|checks| - 1 := s]
  }

  /** The request gets its one answer, which ends the run. */
  function AnsweredRun(r: Run, s: Status, a: Answer): Run
    requires r.request.Some?
  {
    r.(checks := SetLast(r.checks, s), result := Some(a.outcome), terminal := true,
       request := Some(r.request.value.(answer := Some(a))), events := r.events + [RunCompleted])
  }

  /** Any message looks at the deadline first. */
  function Expired(r: Run, now: int): Run
  {
    if IsPending(r) && now > r.request.value.deadline then AnsweredRun(r, Unavailable, Answer(NotAvailable, now)) else r
  }

  function StatusFor(o: Outcome): Status
  {
    match o case Success => Pass case Denied => Fail case NotAvailable => Unavailable case _ => Errored
  }

  /** The service's answer to the ticket, if it is the one the run waits for.  An answer that is not well-formed
      (None, or an outcome it may not have) counts as an error, and one after the deadline as no answer. */
  predicate Awaits(st: Store, user: UserId, t: Ticket)
  {
    && t.owner == user && user in st.states && st.states[user].owner == user && st.states[user].id == t.run
    && st.states[user].mode == HttpSample && IsPending(st.states[user]) && st.states[user].request.value.id == t.request
  }

  function Verdict(answer: Option<Outcome>, deadline: int, now: int): Outcome
  {
    if now > deadline then NotAvailable else if answer.None? || answer == Some(Failure) then Error else answer.value
  }

  function Completed(st: Store, user: UserId, t: Ticket, answer: Option<Outcome>, now: int): Store
  {
    if Awaits(st, user, t) then
      var o := Verdict(answer, t.deadline, now);
      st.(states := st.states[user := AnsweredRun(st.states[user], StatusFor(o), Answer(o, now))])
    else st
  }

  /** One more feed event of a source takes the source's next number. */
  function EmitOne(r: Run, s: Source): Run
  {
    var n := if s in r.sequences then r.sequences[s] else 0;
    r.(sequences := r.sequences[s := n + 1], feed := r.feed + [FeedEvent(s, n)])
  }

  function Emitted(r: Run, s: Source, count: nat): Run
  {
    if count == 0 then r else EmitOne(Emitted(r, s, count - 1), s)
  }

  function EvaluatedStep(r: Run, step: Step, i: nat): Run
    requires i < |r.checks|
  {
    if step.skip then r.(checks := r.checks[i := Skipped])
    else
      var e := Emitted(r.(activeStep := i + 1, checks := r.checks[i := step.verdict]), step.source, step.count);
      e.(events := e.events + [StepCompleted])
  }

  /** Finishing an atlas run that did not succeed reads its failed check; without one the program stops there,
      before the event is added. */
  function FinishedAtlas(r: Run, spec: Spec): Run
  {
    if spec.resource.Some? then
      r.(mode := Fixture, terminal := true, result := spec.resource, checks := SetLast(r.checks, ResourceStatus(spec.resource.value)),
         events := r.events + [RunCompleted])
    else if spec.result == Success || Fail in r.checks then
      r.(terminal := true, result := Some(spec.result), events := r.events + [RunCompleted])
    else
      r.(terminal := true, result := Some(spec.result))
  }

  function ResourceStatus(o: Outcome): Status
  {
    match o case Success => Pass case NotAvailable => Unavailable case _ => Fail
  }

  function Sent(r: Run, id: Id, deadline: int): Run
  {
    r.(activeStep := r.activeStep + 1, checks := SetLast(r.checks, Pending), request := Some(Request(id, deadline, None)))
  }

  predicate CanAdvance(r: Run)
  {
    !r.terminal && r.result.None? && !IsPending(r) && r.activeStep < |r.checks| && r.activeStep < Steps(r.plan)
  }

  function AdvancedAtlas(r: Run, spec: Spec, id: Id, deadline: int): Run
    requires r.activeStep < |r.checks| && r.activeStep < |spec.steps|
  {
    var last := r.activeStep == |spec.steps| - 1;
    if last && spec.result == Success && r.mode == HttpSample then Sent(r, id, deadline)
    else
      var e := EvaluatedStep(r, spec.steps[r.activeStep], r.activeStep);
      if last then FinishedAtlas(e, spec) else e
  }

  function StoppedClassic(r: Run, scenario: Scenario): Run
    requires r.activeStep < |r.checks|
  {
    var k := r.activeStep + 1;
    r.(activeStep := k,
       checks := r.checks[..k - 1] + [scenario.failStatus] + seq(|r.checks| - k, i => Skipped),
       result := Some(scenario.result), terminal := true, events := r.events + [CheckFailed, RunCompleted])
  }

  function AdvancedClassic(mode: Mode, r: Run, scenario: Scenario, id: Id, deadline: int): Run
    requires r.activeStep < |r.checks|
  {
    var k := r.activeStep + 1;
    if scenario.stopStep == Some(k) then StoppedClassic(r, scenario)
    else if k < CHECKS then r.(activeStep := k, checks := r.checks[k - 1 := Pass], events := r.events + [StepCompleted])
    else if mode == HttpSample then Sent(r, id, deadline)
    else r.(activeStep := k, checks := r.checks[k - 1 := Pass], result := Some(scenario.result), terminal := true,
            events := r.events + [StepCompleted, RunCompleted])
  }

  function Advanced(mode: Mode, r: Run, id: Id, deadline: int): Run
    requires CanAdvance(r)
  {
    if r.plan.Classic? then AdvancedClassic(mode, r, r.plan.scenario, id, deadline)
    else AdvancedAtlas(r, r.plan.spec, id, deadline)
  }

  function Blank(owner: UserId, id: Id, plan: Plan, mode: Mode): Run
  {
    Run(owner, id, plan, mode, 0, seq(Steps(plan), i => NotEvaluated), false, None, None, [RunStarted], map[], [])
  }

  function StartedClassic(owner: UserId, id: Id, scenario: Scenario, mode: Mode): Run
  {
    var b := Blank(owner, id, Classic(scenario), mode);
    b.(activeStep := 1, checks := b.checks[0 := Pass], events := [RunStarted, StepCompleted])
  }

  /** The steps before the first one, all of them marked as skipped. */
  function SkippedTo(checks: seq<Status>, n: nat): seq<Status>
    requires n <= |checks|
  {
    seq(n, i => Skipped) + checks[n..]
  }

  function StartedAtlas(owner: UserId, id: Id, spec: Spec, mode: Mode): Run
    requires spec.first < |spec.steps|
  {
    var b := Blank(owner, id, Atlas(spec), if spec.resource.Some? then Fixture else mode);
    var e := EvaluatedStep(b.(checks := SkippedTo(b.checks, spec.first)), spec.steps[spec.first], spec.first);
    if spec.first == |spec.steps| - 1 then FinishedAtlas(e, spec) else e
  }

  function Started(owner: UserId, id: Id, plan: Plan, mode: Mode): Run
    requires plan.Atlas? ==> plan.spec.first < |plan.spec.steps|
  {
    if plan.Classic? then StartedClassic(owner, id, plan.scenario, mode) else StartedAtlas(owner, id, plan.spec, mode)
  }

  // ---- The catalogue -----------------------------------------------------------------------------

  /** The steps of a spec: those before the first one are the skipped ones, the others have a verdict. */
  predicate StepsOk(s: Spec)
  {
    && s.first < |s.steps|
    && (forall i :: 0 <= i < |s.steps| ==> (s.steps[i].skip <==> i < s.first))
    && (forall i :: 0 <= i < |s.steps| ==> s.steps[i].verdict in {Pass, Fail, Unavailable})
  }

  /** What the engine needs of its catalogue; see JourneyRun.FinishesSoundlyIff for what happens without. */
  predicate SpecOk(s: Spec)
  {
    && StepsOk(s)
    && (s.resource.None? && s.result != Success ==> exists i :: s.first <= i < |s.steps| && s.steps[i].verdict == Fail)
    && (s.resource.None? && s.result == Success ==> s.first < |s.steps| - 1)
  }

  predicate ScenarioOk(s: Scenario)
  {
    match s.stopStep
    case None => true
    case Some(k) => 2 <= k <= CHECKS && s.failStatus in {Fail, Unavailable} && s.result != Success
  }

  predicate PlanOk(p: Plan)
  {
    if p.Classic? then ScenarioOk(p.scenario) else SpecOk(p.spec)
  }

  predicate DefinitionOk(d: Definition)
  {
    && d.specs.Keys == d.profiles.Keys == (if d.variants == [] then {None} else set v | v in d.variants :: Some(v))
    && ("rule-deny" in d.variants || d.variants == [])
    && forall v :: v in d.specs ==> SpecOk(d.specs[v])
  }

  predicate SettingsOk(c: Settings)
  {
    && (forall k :: k in c.classic ==> ScenarioOk(c.classic[k]))
    && (forall k :: k in c.atlas ==> DefinitionOk(c.atlas[k]))
  }

  datatype Resolved = Found(plan: Plan) | Unknown(code: Code)

  /** The scenario a start command asks for. */
  function Resolve(c: Settings, d: StartData): (r: Resolved)
    requires SettingsOk(c)
    ensures r.Found? ==> PlanOk(r.plan)
  {
    if d.scenario in c.atlas then ResolveAtlas(c.atlas[d.scenario], d)
    else
      var name := if d.scenario in c.aliases then c.aliases[d.scenario] else d.scenario;
      if name !in c.classic then Unknown(InvalidScenario)
      else if !d.serviceOk then Unknown(InvalidServiceScenario)
      else Found(Classic(c.classic[name]))
  }

  function ResolveAtlas(a: Definition, d: StartData): (r: Resolved)
    requires DefinitionOk(a)
    ensures r.Found? ==> PlanOk(r.plan)
  {
    var variant := if d.variant.Some? then d.variant else if a.variants != [] then Some("rule-deny") else None;
    if variant !in a.specs then Unknown(InvalidVariant)
    else if d.profile.Some? && d.profile.value != a.profiles[variant] then Unknown(InvalidProfile)
    else if !d.credentialOk then Unknown(InvalidCredential)
    else if !d.serviceOk then Unknown(InvalidServiceScenario)
    else Found(Atlas(a.specs[variant]))
  }

  /** What the request under way carries for its continuation. */
  function TicketOf(st: Store, user: UserId): Option<Ticket>
  {
    if user in st.states && IsPending(st.states[user]) then
      Some(Ticket(user, st.states[user].id, st.states[user].request.value.id, st.states[user].request.value.deadline))
    else None
  }

  // ---- Messages ----------------------------------------------------------------------------------

  /** Reading a user's run applies its deadline. */
  function Looked(st: Store, user: UserId, now: int): Store
  {
    if user in st.states then st.(states := st.states[user := Expired(st.states[user], now)]) else st
  }

  function History(st: Store, user: UserId): seq<string>
  {
    if user in st.histories then st.histories[user] else []
  }

  const KEPT := 100

  function Remember(h: seq<string>, id: string): seq<string>
  {
    var n := h + [id];
    if |n| <= KEPT then n else n[|n| - KEPT..]
  }

  function CommandOk(c: Settings, st: Store, user: UserId, commandId: string): Reply
  {
    if c.broken then Refused(AdapterError)
    else if !(0 < |commandId| <= 120) then Refused(ValidationFailed)
    else if commandId in History(st, user) then Refused(DuplicateCommand)
    else Done
  }

  function StartedFor(c: Settings, st: Store, user: UserId, d: StartData, id: Id): Handled
    requires SettingsOk(c)
  {
    if user in st.states && st.states[user].result.None? then Handled(st, Refused(RunInProgress))
    else
      var r := Resolve(c, d);
      if r.Unknown? then Handled(st, Refused(r.code))
      else Handled(st.(states := st.states[user := Started(user, id, r.plan, c.mode)]), Done)
  }

  function ResetFor(st: Store, user: UserId, run: Id): Handled
  {
    if user !in st.states then Handled(st, Done)
    else if run != st.states[user].id then Handled(st, Refused(StaleRun))
    else Handled(st.(states := st.states - {user}), Done)
  }

  function AdvancedFor(c: Settings, st: Store, user: UserId, run: Id, id: Id, now: int): Handled
  {
    if user !in st.states then Handled(st, Refused(NoActiveRun))
    else
      var r := st.states[user];
      if run != r.id then Handled(st, Refused(StaleRun))
      else if r.terminal || r.result.Some? then Handled(st, Refused(InvalidTransition))
      else if IsPending(r) then Handled(st, Refused(RequestInProgress))
      else if r.activeStep >= |r.checks| || r.activeStep >= Steps(r.plan) then Handled(st, Refused(InvalidTransition))
      else Handled(st.(states := st.states[user := Advanced(c.mode, r, id, now + c.flowDeadline)]), Done)
  }

  function Commanded(c: Settings, st: Store, user: UserId, commandId: string, command: Command, id: Id, now: int): Handled
    requires SettingsOk(c)
  {
    var l := Looked(st, user, now);
    var ok := CommandOk(c, l, user, commandId);
    if ok.Refused? then Handled(l, ok)
    else
      var h := l.(histories := l.histories[user := Remember(History(l, user), commandId)]);
      match command
      case Start(d) => StartedFor(c, h, user, d, id)
      case Reset(run) => ResetFor(h, user, run)
      case Next(run) => AdvancedFor(c, h, user, run, id, now)
  }

  class JourneyEngine {
    const settings: Settings
    var states: map<UserId, Run>
    var histories: map<UserId, seq<string>>

    ghost function Abs(): Store
      reads this
    {
      Store(states, histories)
    }

    constructor (settings: Settings)
      ensures this.settings == settings && Abs() == Store(map[], map[])
    {
      this.settings, states, histories := settings, map[], map[];
    }

    /** The deadline of the user's pending request, which every message applies first. */
    method Look(user: UserId, now: int)
      modifies `states
      ensures Abs() == Looked(old(Abs()), user, now)
    {
      if user in states {
        var r := states[user];
        if r.request.Some? && r.request.value.answer.None? && now > r.request.value.deadline {
          r := r.(checks := SetLast(r.checks, Unavailable), result := Some(NotAvailable), terminal := true);
          r := r.(request := Some(r.request.value.(answer := Some(Answer(NotAvailable, now)))));
          r := r.(events := r.events + [RunCompleted]);
        }
        states := states[user := r];
      }
    }

    method Command(user: UserId, commandId: string, command: Command, id: Id, now: int) returns (reply: Reply, sent: Option<Ticket>)
      requires SettingsOk(settings)
      modifies this
      ensures sent == if command.Next? && reply == Done then TicketOf(Abs(), user) else None
      ensures Handled(Abs(), reply) == Commanded(settings, old(Abs()), user, commandId, command, id, now)
    {
      Look(user, now);
      if settings.broken {
        return Refused(AdapterError), None;
      }
      if commandId == "" || |commandId| > 120 {
        return Refused(ValidationFailed), None;
      }
      var history := if user in histories then histories[user] else [];
      if commandId in history {
        return Refused(DuplicateCommand), None;
      }
      histories := histories[user := Remember(history, commandId)];
      match command
      case Start(data) =>
        reply := StartRun(user, data, id);
        sent := None;
      case Reset(run) =>
        reply := ResetRun(user, run);
        sent := None;
      case Next(run) => reply, sent := NextStep(user, run, id, now);
    }

    method StartRun(user: UserId, data: StartData, id: Id) returns (reply: Reply)
      requires SettingsOk(settings)
      modifies `states
      ensures Handled(Abs(), reply) == StartedFor(settings, old(Abs()), user, data, id)
    {
      if user in states && states[user].result == None {
        return Refused(RunInProgress);
      }
      var found := Resolve(settings, data);
      if found.Unknown? {
        return Refused(found.code);
      }
      var r: Run;
      match found.plan {
        case Classic(scenario) => r := NewClassic(user, id, scenario);
        case Atlas(spec) => r := NewAtlas(user, id, spec);
      }
      states := states[user := r];
      return Done;
    }

    method NewClassic(user: UserId, id: Id, scenario: Scenario) returns (r: Run)
      ensures r == StartedClassic(user, id, scenario, settings.mode)
    {
      r := Blank(user, id, Classic(scenario), settings.mode);
      r := r.(activeStep := 1, checks := r.checks[0 := Pass]);
      r := r.(events := r.events + [StepCompleted]);
      assert r.events == [RunStarted, StepCompleted];
    }

    method NewAtlas(user: UserId, id: Id, spec: Spec) returns (r: Run)
      requires SpecOk(spec)
      ensures r == StartedAtlas(user, id, spec, settings.mode)
    {
      r := Blank(user, id, Atlas(spec), if spec.resource.Some? then Fixture else settings.mode);
      r := SkipTo(r, spec);
      r := EvaluateAtlasStep(r, spec.steps[spec.first], spec.first);
      if spec.first == |spec.steps| - 1 {
        r := FinishAtlas(r, spec);
      }
    }

    method SkipTo(r: Run, spec: Spec) returns (r': Run)
      requires SpecOk(spec) && |r.checks| == |spec.steps|
      ensures r' == r.(checks := SkippedTo(r.checks, spec.first))
    {
      r' := r;
      var i := 0;
      while i < spec.first
        invariant i <= spec.first && r' == r.(checks := SkippedTo(r.checks, i))
      {
        r' := EvaluateAtlasStep(r', spec.steps[i], i);
        i := i + 1;
      }
    }

    method EvaluateAtlasStep(r: Run, step: Step, i: nat) returns (r': Run)
      requires i < |r.checks|
      ensures r' == EvaluatedStep(r, step, i)
    {
      if step.skip {
        return r.(checks := r.checks[i := Skipped]);
      }
      r' := r.(activeStep := i + 1, checks := r.checks[i := step.verdict]);
      ghost var begun := r';
      var k := 0;
      while k < step.count
        invariant k <= step.count && r' == Emitted(begun, step.source, k)
      {
        var n := if step.source in r'.sequences then r'.sequences[step.source] else 0;
        r' := r'.(sequences := r'.sequences[step.source := n + 1]);
        r' := r'.(feed := r'.feed + [FeedEvent(step.source, n)]);
        k := k + 1;
      }
      r' := r'.(events := r'.events + [StepCompleted]);
    }

    method FinishAtlas(r: Run, spec: Spec) returns (r': Run)
      ensures r' == FinishedAtlas(r, spec)
    {
      if spec.resource.Some? {
        r' := r.(mode := Fixture, terminal := true, result := spec.resource);
        r' := r'.(checks := SetLast(r'.checks, ResourceStatus(spec.resource.value)));
        r' := r'.(events := r'.events + [RunCompleted]);
        return;
      }
      r' := r.(terminal := true, result := Some(spec.result));
      if spec.result != Success && Fail !in r.checks {
        return;
      }
      r' := r'.(events := r'.events + [RunCompleted]);
    }

    method ResetRun(user: UserId, run: Id) returns (reply: Reply)
      modifies `states
      ensures Handled(Abs(), reply) == ResetFor(old(Abs()), user, run)
    {
      if user in states {
        if run != states[user].id {
          return Refused(StaleRun);
        }
        states := states - {user};
      }
      return Done;
    }

    method NextStep(user: UserId, run: Id, id: Id, now: int) returns (reply: Reply, sent: Option<Ticket>)
      modifies `states
      ensures Handled(Abs(), reply) == AdvancedFor(settings, old(Abs()), user, run, id, now)
      ensures sent == if reply == Done then TicketOf(Abs(), user) else None
    {
      if user !in states {
        return Refused(NoActiveRun), None;
      }
      var r := states[user];
      if run != r.id {
        return Refused(StaleRun), None;
      }
      if r.terminal || r.result != None {
        return Refused(InvalidTransition), None;
      }
      if r.request.Some? && r.request.value.answer == None {
        return Refused(RequestInProgress), None;
      }
      if r.activeStep >= |r.checks| || r.activeStep >= Steps(r.plan) {
        return Refused(InvalidTransition), None;
      }
      match r.plan {
        case Classic(scenario) => r := NextClassic(r, scenario, id, now);
        case Atlas(spec) => r := NextAtlas(r, spec, id, now);
      }
      states := states[user := r];
      sent := if IsPending(r) then Some(Ticket(user, r.id, r.request.value.id, r.request.value.deadline)) else None;
      return Done, sent;
    }

    method NextAtlas(r: Run, spec: Spec, id: Id, now: int) returns (r': Run)
      requires r.activeStep < |r.checks| && r.activeStep < |spec.steps|
      ensures r' == AdvancedAtlas(r, spec, id, now + settings.flowDeadline)
    {
      var i := r.activeStep;
      if i == |spec.steps| - 1 && spec.result == Success && r.mode == HttpSample {
        r' := r.(activeStep := i + 1, checks := SetLast(r.checks, Pending));
        r' := r'.(request := Some(Request(id, now + settings.flowDeadline, None)));
        return;
      }
      r' := EvaluateAtlasStep(r, spec.steps[i], i);
      if i == |spec.steps| - 1 {
        r' := FinishAtlas(r', spec);
      }
    }

    method NextClassic(r: Run, scenario: Scenario, id: Id, now: int) returns (r': Run)
      requires r.activeStep < |r.checks|
      ensures r' == AdvancedClassic(settings.mode, r, scenario, id, now + settings.flowDeadline)
    {
      var k := r.activeStep + 1;
      if scenario.stopStep == Some(k) {
        r' := StopClassic(r, scenario);
        return;
      }
      if k >= CHECKS && settings.mode == HttpSample {
        r' := r.(activeStep := k, checks := SetLast(r.checks, Pending));
        r' := r'.(request := Some(Request(id, now + settings.flowDeadline, None)));
        return;
      }
      r' := r.(activeStep := k, checks := r.checks[k - 1 := Pass], events := r.events + [StepCompleted]);
      if k >= CHECKS {
        assert r'.events + [RunCompleted] == r.events + [StepCompleted, RunCompleted];
        r' := r'.(result := Some(scenario.result), terminal := true, events := r'.events + [RunCompleted]);
      }
    }

    /** A failed check: all later ones are skipped, one after the other, and the run ends. */
    method StopClassic(r: Run, scenario: Scenario) returns (r': Run)
      requires r.activeStep < |r.checks|
      ensures r' == StoppedClassic(r, scenario)
    {
      var k := r.activeStep + 1;
      var checks := r.checks[k - 1 := scenario.failStatus];
      var i := k;
      while i < |checks|
        invariant k <= i <= |checks| == |r.checks|
        invariant checks == r.checks[..k - 1] + [scenario.failStatus] + seq(i - k, j => Skipped) + r.checks[i..]
      {
        checks := checks[i := Skipped];
        i := i + 1;
      }
      assert checks == r.checks[..k - 1] + [scenario.failStatus] + seq(|r.checks| - k, j => Skipped);
      r' := r.(activeStep := k, checks := checks, result := Some(scenario.result), terminal := true);
      r' := r'.(events := r'.events + [CheckFailed]);
      r' := r'.(events := r'.events + [RunCompleted]);
      assert r'.events == r.events + [CheckFailed, RunCompleted];
    }

    /** The service's answer, or the failure to get one. */
    method Complete(user: UserId, ticket: Ticket, answer: Option<Outcome>, now: int) returns (taken: bool)
      modifies `states
      ensures Abs() == Completed(old(Abs()), user, ticket, answer, now)
      ensures taken <==> Awaits(old(Abs()), user, ticket)
    {
      if ticket.owner != user || user !in states {
        return false;
      }
      var r := states[user];
      if r.owner != user || r.id != ticket.run || r.mode != HttpSample || r.request.None?
        || r.request.value.answer.Some? || r.request.value.id != ticket.request {
        return false;
      }
      var outcome := if answer.Some? && answer.value != Failure then answer.value else Error;
      if now > ticket.deadline {
        outcome := NotAvailable;
      }
      r := r.(checks := SetLast(r.checks, StatusFor(outcome)), result := Some(outcome), terminal := true);
      r := r.(request := Some(r.request.value.(answer := Some(Answer(outcome, now)))), events := r.events + [RunCompleted]);
      states := states[user := r];
      return true;
    }
  }
}
