/**
 What holds of a single run of the journey, from its start through every command, answer and deadline.
 */
module JourneyRun {
  import opened Text
  import opened Journey

  // ---- Feed numbers ------------------------------------------------------------------------------

  /** The numbers that a source's events carry, in order. */
  ghost function NumbersOf(feed: seq<FeedEvent>, s: Source): seq<nat>
  {
    if feed == [] then []
    else
      var last := feed[|feed| - 1];
      NumbersOf(feed[..|feed| - 1], s) + (if last.source == s then [last.number] else [])
  }

  ghost function Upto(n: nat): seq<nat>
  {
    seq(n, i => i)
  }

  ghost function Issued(sequences: map<Source, nat>, s: Source): nat
  {
    if s in sequences then sequences[s] else 0
  }

  /** Every source's events carry 0, 1, 2, … up to the source's next number. */
  ghost predicate Numbered(r: Run)
  {
    forall s :: NumbersOf(r.feed, s) == Upto(Issued(r.sequences, s))
  }

  lemma EmitOneNumbered(r: Run, s: Source)
    requires Numbered(r)
    ensures Numbered(EmitOne(r, s))
  {
    var e := EmitOne(r, s);
    forall t
      ensures NumbersOf(e.feed, t) == Upto(Issued(e.sequences, t))
    {
      assert NumbersOf(r.feed, t) == Upto(Issued(r.sequences, t));
      assert e.feed[..|e.feed| - 1] == r.feed;
    }
  }

  lemma {:induction false} EmittedNumbered(r: Run, s: Source, count: nat)
    requires Numbered(r)
    ensures Numbered(Emitted(r, s, count))
    ensures Emitted(r, s, count) == r.(sequences := Emitted(r, s, count).sequences, feed := Emitted(r, s, count).feed)
  {
    if count > 0 {
      EmittedNumbered(r, s, count - 1);
      EmitOneNumbered(Emitted(r, s, count - 1), s);
    }
  }

  // ---- The invariant of a run --------------------------------------------------------------------

  ghost function Completions(r: Run): nat
  {
    multiset(r.events)[RunCompleted]
  }

  /** The run ends once, with a result and one completion event; a pending request holds up the last step,
      and a run that has not ended and waits for nothing has a step left. */
  ghost predicate Progress(r: Run)
  {
    && (r.terminal <==> r.result.Some?)
    && Completions(r) == (if r.terminal then 1 else 0)
    && 1 <= r.activeStep <= |r.checks| == Steps(r.plan)
    && (r.request.Some? ==> r.activeStep == |r.checks| && r.mode == HttpSample && (r.terminal <==> !IsPending(r)))
    && (!r.terminal && !IsPending(r) ==> r.activeStep < |r.checks|)
  }

  /** The check at i after `active` classic steps: Pass before the last one, `last` for it, `rest` after it. */
  ghost function ClassicCheck(active: nat, last: Status, rest: Status, i: nat): Status
  {
    if i + 1 < active then Pass else if i + 1 == active then last else rest
  }

  /** The status of the last classic check and of those after it: a stop fails it and skips the rest, and a
      service request leaves it pending or with the answer's status. */
  ghost function LastStatus(r: Run, s: Scenario): Status
  {
    if s.stopStep == Some(r.activeStep) then s.failStatus
    else if IsPending(r) then Pending
    else if r.request.Some? then StatusFor(r.request.value.answer.value.outcome)
    else Pass
  }

  ghost function RestStatus(r: Run, s: Scenario): Status
  {
    if s.stopStep == Some(r.activeStep) then Skipped else NotEvaluated
  }

  /** A classic run is exactly determined by how far it is: it stops at its stop step and only there, and
      without one it goes to the last step. */
  ghost predicate ClassicSound(r: Run, s: Scenario)
  {
    && |r.checks| == CHECKS
    && (forall i :: 0 <= i < CHECKS ==> r.checks[i] == ClassicCheck(r.activeStep, LastStatus(r, s), RestStatus(r, s), i))
    && (s.stopStep.Some? ==> r.activeStep <= s.stopStep.value && r.request.None? && (r.terminal <==> r.activeStep == s.stopStep.value))
    && (s.stopStep.None? && r.activeStep == CHECKS ==> (r.request.Some? <==> r.mode == HttpSample))
    && (s.stopStep.None? && r.terminal ==> r.activeStep == CHECKS)
    && (r.terminal && r.request.None? ==> r.result == Some(s.result))
  }

  /** The status that shows the outcome of a local resource. */
  ghost predicate Shows(s: Status, o: Outcome)
  {
    s == if o == Success then Pass else if o == NotAvailable then Unavailable else Fail
  }

  /** An atlas run: steps before the first one are skipped, those done have their verdict, but the last one shows
      the outcome of the local resource or of the request, and the others are not evaluated. */
  ghost predicate AtlasSound(r: Run, s: Spec)
  {
    && |r.checks| == |s.steps| && s.first < r.activeStep <= |s.steps|
    && (forall i :: 0 <= i < s.first ==> r.checks[i] == Skipped)
    && (forall i :: s.first <= i < r.activeStep && (i + 1 < |s.steps| || (r.request.None? && s.resource.None?)) ==> r.checks[i] == s.steps[i].verdict)
    && (forall i :: r.activeStep <= i < |s.steps| ==> r.checks[i] == NotEvaluated)
    && (r.terminal && s.resource.Some? ==> Shows(r.checks[|s.steps| - 1], s.resource.value))
    && (r.request.Some? ==> r.checks[|s.steps| - 1] == if IsPending(r) then Pending else StatusFor(r.request.value.answer.value.outcome))
    && (r.terminal && r.request.None? ==> r.result == Some(if s.resource.Some? then s.resource.value else s.result))
    && (r.request.Some? ==> s.result == Success && s.resource.None?)
    && (r.terminal ==> r.activeStep == |s.steps|)
    && (r.activeStep == |s.steps| && s.resource.None? && s.result == Success && r.mode == HttpSample ==> r.request.Some?)
  }

  ghost predicate PlanSound(r: Run)
  {
    if r.plan.Classic? then ClassicSound(r, r.plan.scenario) else AtlasSound(r, r.plan.spec)
  }

  ghost predicate ModeSound(mode: Mode, r: Run)
  {
    r.mode == if r.plan.Atlas? && r.plan.spec.resource.Some? then Fixture else mode
  }

  /** A success was processed by its deadline. */
  ghost predicate Timely(r: Run)
  {
    r.request.Some? && r.request.value.answer.Some? ==>
      var a := r.request.value.answer.value;
      r.result == Some(a.outcome) && (a.outcome == Success ==> a.at <= r.request.value.deadline)
  }

  ghost predicate RunSound(mode: Mode, r: Run)
  {
    PlanOk(r.plan) && Progress(r) && PlanSound(r) && ModeSound(mode, r) && Timely(r) && Numbered(r)
  }

  // ---- Evaluating a step --------------------------------------------------------------------------

  lemma EvaluatedShape(r: Run, step: Step, i: nat)
    requires i < |r.checks| && !step.skip && Numbered(r)
    ensures var e := EvaluatedStep(r, step, i);
            && e == r.(activeStep := i + 1, checks := r.checks[i := step.verdict], events := r.events + [StepCompleted],
                       sequences := e.sequences, feed := e.feed)
            && Numbered(e) && Completions(e) == Completions(r)
  {
    EmittedNumbered(r.(activeStep := i + 1, checks := r.checks[i := step.verdict]), step.source, step.count);
  }

  // ---- A run starts soundly ----------------------------------------------------------------------

  lemma StartedClassicSound(owner: UserId, id: Id, s: Scenario, mode: Mode)
    requires ScenarioOk(s)
    ensures RunSound(mode, StartedClassic(owner, id, s, mode))
  {
    var r := StartedClassic(owner, id, s, mode);
    EmptyNumbered(r);
    assert multiset(r.events) == multiset{RunStarted, StepCompleted};
    assert Progress(r);
  }

  lemma EmptyNumbered(r: Run)
    requires r.feed == [] && r.sequences == map[]
    ensures Numbered(r)
  {
  }

  lemma StartedAtlasSound(owner: UserId, id: Id, s: Spec, mode: Mode)
    requires SpecOk(s)
    ensures RunSound(mode, StartedAtlas(owner, id, s, mode))
  {
    var b := Blank(owner, id, Atlas(s), if s.resource.Some? then Fixture else mode);
    var p := b.(checks := SkippedTo(b.checks, s.first));
    EmptyNumbered(p);
    EvaluatedShape(p, s.steps[s.first], s.first);
    var e := EvaluatedStep(p, s.steps[s.first], s.first);
    assert AtlasDone(e, s, s.first + 1);
    if s.first == |s.steps| - 1 {
      FinishedAtlasSound(mode, e, s);
    }
  }

  lemma StartedSound(owner: UserId, id: Id, plan: Plan, mode: Mode)
    requires PlanOk(plan)
    ensures RunSound(mode, Started(owner, id, plan, mode))
    ensures Started(owner, id, plan, mode).owner == owner && Started(owner, id, plan, mode).id == id
    ensures Started(owner, id, plan, mode).request.None?
  {
    if plan.Classic? {
      StartedClassicSound(owner, id, plan.scenario, mode);
    } else {
      StartedAtlasSound(owner, id, plan.spec, mode);
      var b := Blank(owner, id, plan, if plan.spec.resource.Some? then Fixture else mode);
      EvaluatedKeeps(b.(checks := SkippedTo(b.checks, plan.spec.first)), plan.spec.steps[plan.spec.first], plan.spec.first);
    }
  }

  lemma EvaluatedKeeps(r: Run, step: Step, i: nat)
    requires i < |r.checks|
    ensures var e := EvaluatedStep(r, step, i); e.owner == r.owner && e.id == r.id && e.request == r.request
  {
    EmittedGrows(r.(activeStep := i + 1, checks := r.checks[i := step.verdict]), step.source, step.count);
  }

  /** The first n steps are done, nothing is finished. */
  ghost predicate AtlasDone(r: Run, s: Spec, n: nat)
  {
    && !r.terminal && r.result.None? && r.request.None? && Completions(r) == 0 && r.plan == Atlas(s)
    && s.first < r.activeStep == n <= |s.steps| == |r.checks|
    && (forall i :: 0 <= i < s.first ==> r.checks[i] == Skipped)
    && (forall i :: s.first <= i < n ==> r.checks[i] == s.steps[i].verdict)
    && (forall i :: n <= i < |s.steps| ==> r.checks[i] == NotEvaluated)
  }

  lemma FinishedAtlasSound(mode: Mode, r: Run, s: Spec)
    requires SpecOk(s) && AtlasDone(r, s, |s.steps|) && ModeSound(mode, r) && Numbered(r)
    requires s.resource.None? && s.result == Success ==> r.mode == Fixture
    ensures RunSound(mode, FinishedAtlas(r, s))
  {
    if s.resource.None? && s.result != Success {
      var i :| s.first <= i < |s.steps| && s.steps[i].verdict == Fail;
      assert r.checks[i] == Fail;
    }
  }

  // ---- Whether a run says that it has ended --------------------------------------------------------

  /** An atlas run after n steps, from where its start has brought it. */
  ghost function Played(start: Run, s: Spec, n: nat): Run
  {
    if n <= s.first + 1 then start
    else
      var r := Played(start, s, n - 1);
      if r.activeStep < |r.checks| && r.activeStep < |s.steps| then AdvancedAtlas(r, s, r.id, 0) else r
  }

  lemma StartedDone(owner: UserId, id: Id, s: Spec, mode: Mode) returns (e: Run)
    requires StepsOk(s)
    ensures AtlasDone(e, s, s.first + 1) && Numbered(e) && ModeSound(mode, e)
    ensures StartedAtlas(owner, id, s, mode) == if s.first == |s.steps| - 1 then FinishedAtlas(e, s) else e
  {
    var b := Blank(owner, id, Atlas(s), if s.resource.Some? then Fixture else mode);
    var p := b.(checks := SkippedTo(b.checks, s.first));
    EmptyNumbered(p);
    EvaluatedShape(p, s.steps[s.first], s.first);
    e := EvaluatedStep(p, s.steps[s.first], s.first);
  }

  lemma {:induction false} PlayedDone(start: Run, s: Spec, mode: Mode, n: nat)
    requires StepsOk(s) && s.first < n < |s.steps| && AtlasDone(start, s, s.first + 1) && Numbered(start) && ModeSound(mode, start)
    ensures var r := Played(start, s, n); AtlasDone(r, s, n) && Numbered(r) && ModeSound(mode, r)
  {
    if n > s.first + 1 {
      PlayedDone(start, s, mode, n - 1);
      var e := StepDone(Played(start, s, n - 1), s, mode, n - 1);
    }
  }

  /** One step more is done, and it finishes the run if it is the last. */
  lemma StepDone(r: Run, s: Spec, mode: Mode, n: nat) returns (e: Run)
    requires StepsOk(s) && n < |s.steps| && AtlasDone(r, s, n) && Numbered(r) && ModeSound(mode, r)
    requires s.resource.None? && s.result == Success ==> n + 1 < |s.steps| || mode == Fixture
    ensures AtlasDone(e, s, n + 1) && Numbered(e) && ModeSound(mode, e)
    ensures AdvancedAtlas(r, s, r.id, 0) == if n + 1 == |s.steps| then FinishedAtlas(e, s) else e
  {
    EvaluatedShape(r, s.steps[n], n);
    e := EvaluatedStep(r, s.steps[n], n);
  }

  lemma PlayedEnds(start: Run, s: Spec, mode: Mode) returns (e: Run)
    requires StepsOk(s) && (s.resource.None? && s.result == Success ==> mode == Fixture) && s.first + 1 < |s.steps|
    requires AtlasDone(start, s, s.first + 1) && Numbered(start) && ModeSound(mode, start)
    ensures AtlasDone(e, s, |s.steps|) && Played(start, s, |s.steps|) == FinishedAtlas(e, s)
  {
    var n := |s.steps| - 1;
    PlayedDone(start, s, mode, n);
    e := StepDone(Played(start, s, n), s, mode, n);
  }

  ghost predicate SomeFails(s: Spec)
  {
    exists i :: s.first <= i < |s.steps| && s.steps[i].verdict == Fail
  }

  /** Every spec that is played to its end ends the run; the run says so, once, exactly if it has a resource of its
      own, is to succeed, or has a step that fails.  (A success over the service ends with the service's answer.) */
  lemma FinishesSoundlyIff(owner: UserId, id: Id, s: Spec, mode: Mode)
    requires StepsOk(s) && (s.resource.None? && s.result == Success ==> mode == Fixture)
    ensures var r := Played(StartedAtlas(owner, id, s, mode), s, |s.steps|);
            && r.terminal && r.result.Some? && Completions(r) <= 1
            && (Completions(r) == 1 <==> s.resource.Some? || s.result == Success || SomeFails(s))
  {
    var e := StartedDone(owner, id, s, mode);
    if s.first + 1 < |s.steps| {
      e := PlayedEnds(e, s, mode);
    }
    FinishedOnceIff(e, s);
  }

  lemma FinishedOnceIff(e: Run, s: Spec)
    requires StepsOk(s) && AtlasDone(e, s, |s.steps|)
    ensures var r := FinishedAtlas(e, s);
            && r.terminal && r.result.Some? && Completions(r) <= 1
            && (Completions(r) == 1 <==> s.resource.Some? || s.result == Success || SomeFails(s))
  {
    if i :| s.first <= i < |s.steps| && s.steps[i].verdict == Fail {
      assert e.checks[i] == Fail;
    }
    if Fail in e.checks {
      var i :| 0 <= i < |e.checks| && e.checks[i] == Fail;
      assert s.first <= i;
    }
  }

  // ---- Every step of a run keeps it sound ---------------------------------------------------------

  lemma CountsAppend(events: seq<Event>, e: Event)
    ensures multiset(events + [e])[RunCompleted] == multiset(events)[RunCompleted] + (if e == RunCompleted then 1 else 0)
  {
  }

  lemma AnsweredSound(mode: Mode, r: Run, s: Status, a: Answer)
    requires RunSound(mode, r) && IsPending(r) && s == StatusFor(a.outcome)
    requires a.outcome == Success ==> a.at <= r.request.value.deadline
    ensures RunSound(mode, AnsweredRun(r, s, a))
  {
    var t := AnsweredRun(r, s, a);
    CountsAppend(r.events, RunCompleted);
    assert Progress(t);
    assert t.checks == r.checks[|r.checks| - 1 := s];
    assert PlanSound(t);
  }

  lemma ExpiredSound(mode: Mode, r: Run, now: int)
    requires RunSound(mode, r)
    ensures RunSound(mode, Expired(r, now))
  {
    if Expired(r, now) != r {
      AnsweredSound(mode, r, Unavailable, Answer(NotAvailable, now));
    }
  }

  lemma SentSound(mode: Mode, r: Run, id: Id, deadline: int)
    requires RunSound(mode, r) && CanAdvance(r) && r.activeStep == |r.checks| - 1 && r.mode == HttpSample
    requires r.plan.Classic? ==> r.plan.scenario.stopStep != Some(CHECKS)
    requires r.plan.Atlas? ==> r.plan.spec.result == Success
    ensures RunSound(mode, Sent(r, id, deadline))
  {
    var t := Sent(r, id, deadline);
    assert r.request.None?;
    assert t.checks == r.checks[|r.checks| - 1 := Pending];
    assert Progress(t);
    assert PlanSound(t);
  }

  lemma StoppedSound(mode: Mode, r: Run, s: Scenario)
    requires RunSound(mode, r) && CanAdvance(r) && r.plan == Classic(s) && s.stopStep == Some(r.activeStep + 1)
    ensures RunSound(mode, StoppedClassic(r, s))
  {
    var t := StoppedClassic(r, s);
    assert r.request.None?;
    CountsAppend(r.events, CheckFailed);
    CountsAppend(r.events + [CheckFailed], RunCompleted);
    assert t.events == r.events + [CheckFailed] + [RunCompleted];
    assert Progress(t);
    assert PlanSound(t);
  }

  lemma AdvancedClassicSound(mode: Mode, r: Run, s: Scenario, id: Id, deadline: int)
    requires RunSound(mode, r) && CanAdvance(r) && r.plan == Classic(s)
    ensures RunSound(mode, AdvancedClassic(mode, r, s, id, deadline))
  {
    var k := r.activeStep + 1;
    if s.stopStep == Some(k) {
      StoppedSound(mode, r, s);
    } else if k == CHECKS && mode == HttpSample {
      SentSound(mode, r, id, deadline);
    } else {
      PassedSound(mode, r, s, id, deadline);
    }
  }

  lemma PassedSound(mode: Mode, r: Run, s: Scenario, id: Id, deadline: int)
    requires RunSound(mode, r) && CanAdvance(r) && r.plan == Classic(s) && s.stopStep != Some(r.activeStep + 1)
    requires r.activeStep + 1 < CHECKS || mode == Fixture
    ensures RunSound(mode, AdvancedClassic(mode, r, s, id, deadline))
  {
    var t := AdvancedClassic(mode, r, s, id, deadline);
    CountsAppend(r.events, StepCompleted);
    CountsAppend(r.events + [StepCompleted], RunCompleted);
    assert r.events + [StepCompleted, RunCompleted] == r.events + [StepCompleted] + [RunCompleted];
    assert r.request.None?;
    assert t.checks == r.checks[r.activeStep := Pass];
    assert Progress(t);
    assert PlanSound(t);
  }

  lemma AdvancedAtlasSound(mode: Mode, r: Run, s: Spec, id: Id, deadline: int)
    requires RunSound(mode, r) && CanAdvance(r) && r.plan == Atlas(s)
    ensures RunSound(mode, AdvancedAtlas(r, s, id, deadline))
  {
    var i := r.activeStep;
    assert r.request.None? && AtlasDone(r, s, i);
    if i == |s.steps| - 1 && s.result == Success && r.mode == HttpSample {
      SentSound(mode, r, id, deadline);
    } else {
      EvaluatedShape(r, s.steps[i], i);
      var e := EvaluatedStep(r, s.steps[i], i);
      assert AtlasDone(e, s, i + 1);
      if i == |s.steps| - 1 {
        FinishedAtlasSound(mode, e, s);
      } else {
        assert PlanSound(e);
      }
    }
  }

  /** A step forward is exactly one: it keeps the run's identity and its soundness, and at most sends the
      one request. */
  ghost predicate Moved(r: Run, t: Run, id: Id)
  {
    && t.owner == r.owner && t.id == r.id && t.plan == r.plan && t.activeStep == r.activeStep + 1
    && r.request.None? && (t.request.None? || (t.request.value.id == id && IsPending(t)))
    && r.feed <= t.feed && r.events <= t.events
  }

  lemma AdvancedSound(mode: Mode, r: Run, id: Id, deadline: int)
    requires RunSound(mode, r) && CanAdvance(r)
    ensures RunSound(mode, Advanced(mode, r, id, deadline))
  {
    if r.plan.Classic? {
      AdvancedClassicSound(mode, r, r.plan.scenario, id, deadline);
    } else {
      AdvancedAtlasSound(mode, r, r.plan.spec, id, deadline);
    }
  }

  lemma {:induction false} EmittedGrows(r: Run, s: Source, count: nat)
    ensures r.feed <= Emitted(r, s, count).feed
    ensures Emitted(r, s, count) == r.(sequences := Emitted(r, s, count).sequences, feed := Emitted(r, s, count).feed)
  {
    if count > 0 {
      EmittedGrows(r, s, count - 1);
    }
  }

  lemma AdvancedMoves(mode: Mode, r: Run, id: Id, deadline: int)
    requires Progress(r) && CanAdvance(r)
    requires r.plan.Atlas? ==> !r.plan.spec.steps[r.activeStep].skip
    ensures Moved(r, Advanced(mode, r, id, deadline), id)
  {
    if r.plan.Atlas? {
      AdvancedAtlasMoves(r, r.plan.spec, id, deadline);
    }
  }

  lemma AdvancedAtlasMoves(r: Run, s: Spec, id: Id, deadline: int)
    requires Progress(r) && CanAdvance(r) && r.plan == Atlas(s) && !s.steps[r.activeStep].skip
    ensures Moved(r, AdvancedAtlas(r, s, id, deadline), id)
  {
    var i := r.activeStep;
    EmittedGrows(r.(activeStep := i + 1, checks := r.checks[i := s.steps[i].verdict]), s.steps[i].source, s.steps[i].count);
  }
}
