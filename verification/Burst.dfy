/**
 The load burst of the policy hook probe: workers that send and record, a striker, and the aggregation of
 what they recorded.
 */
module Burst {
  import opened Text
  import opened Grouping

  const UNAVAILABLE := 503

  /** `down` says that the refusal carries the reason code of an unavailable decision point. */
  datatype Answer = Answer(error: bool, status: int, down: bool, duration: real)

  datatype Response = Response(started: int, answer: Answer, afterStrike: bool)

  // ---- Workers and striker ---------------------------------------------------------------------------

  /** `sent` are the requests under way, by worker, with the instant each was started. */
  datatype State = State(now: int, struckAt: Option<int>, sent: map<nat, int>, responses: seq<Response>)

  datatype Action = Send(worker: nat) | Record(worker: nat, answer: Answer) | Strike | Tick(later: int)

  ghost predicate Enabled(s: State, a: Action)
  {
    match a
    case Send(w) => w !in s.sent
    case Record(w, _) => w in s.sent
    case Strike => s.struckAt.None?
    case Tick(later) => s.now <= later
  }

  /** Recording a response and striking exclude each other: each is one step. */
  ghost function Next(s: State, a: Action): State
    requires Enabled(s, a)
  {
    match a
    case Send(w) => s.(sent := s.sent[w := s.now])
    case Record(w, answer) =>
      var t := s.sent[w];
      s.(sent := s.sent - {w}, responses := s.responses + [Response(t, answer, s.struckAt.Some? && t > s.struckAt.value)])
    case Strike => s.(struckAt := Some(s.now))
    case Tick(later) => s.(now := later)
  }

  ghost function Run(s: State, acts: seq<Action>): Option<State>
    decreases |acts|
  {
    if acts == [] then Some(s)
    else if Enabled(s, acts[0]) then Run(Next(s, acts[0]), acts[1..])
    else None
  }

  ghost function Initial(now: int): State
  {
    State(now, None, map[], [])
  }

  /** The response was started after the strike, seen from the end. */
  predicate StartedAfter(struckAt: Option<int>, r: Response)
  {
    struckAt.Some? && r.started > struckAt.value
  }

  ghost predicate Inv(s: State)
  {
    && (forall w :: w in s.sent ==> s.sent[w] <= s.now)
    && (s.struckAt.Some? ==> s.struckAt.value <= s.now)
    && (forall i :: 0 <= i < |s.responses| ==> s.responses[i].started <= s.now && (s.responses[i].afterStrike <==> StartedAfter(s.struckAt, s.responses[i])))
  }

  lemma NextKeepsInv(s: State, a: Action)
    requires Inv(s) && Enabled(s, a)
    ensures Inv(Next(s, a))
  {
  }

  lemma {:induction false} RunKeepsInv(s: State, acts: seq<Action>, t: State)
    requires Inv(s) && Run(s, acts) == Some(t)
    ensures Inv(t)
    decreases |acts|
  {
    if acts != [] {
      NextKeepsInv(s, acts[0]);
      RunKeepsInv(Next(s, acts[0]), acts[1..], t);
    }
  }

  // ---- Aggregation -----------------------------------------------------------------------------------

  datatype Totals = Totals(
    sent: nat,
    completed: nat,
    errors: nat,
    before: nat,
    beforeStatuses: map<int, nat>,
    after: nat,
    afterUnavailable: nat,
    afterStatuses: map<int, nat>,
    maxDuration: real,
    allWithinBound: bool,
    allAfterRefused: bool,
    anomalies: seq<Response>)

  function Count(rs: seq<Response>, p: Response -> bool): nat
  {
    if rs == [] then 0 else Count(rs[..|rs| - 1], p) + (if p(rs[|rs| - 1]) then 1 else 0)
  }

  function Those(rs: seq<Response>, p: Response -> bool): seq<Response>
  {
    if rs == [] then [] else Those(rs[..|rs| - 1], p) + (if p(rs[|rs| - 1]) then [rs[|rs| - 1]] else [])
  }

  predicate Failed(r: Response)
  {
    r.answer.error
  }

  predicate Finished(r: Response)
  {
    !r.answer.error
  }

  predicate Before(r: Response)
  {
    !r.afterStrike
  }

  predicate After(r: Response)
  {
    r.afterStrike
  }

  /** Sent after the strike and refused as unavailable. */
  predicate Refused(r: Response)
  {
    r.afterStrike && !r.answer.error && r.answer.status == 503 && r.answer.down
  }

  function BeforeWith(status: int): Response -> bool
  {
    (r: Response) => Before(r) && r.answer.status == status
  }

  function AfterWith(status: int): Response -> bool
  {
    (r: Response) => After(r) && r.answer.status == status
  }

  function Anomaly(bound: real): Response -> bool
  {
    (r: Response) => r.answer.duration > bound || (After(r) && !Refused(r))
  }

  function At(m: map<int, nat>, status: int): nat
  {
    if status in m then m[status] else 0
  }

  /** The statuses are counted. */
  ghost predicate Counted(m: map<int, nat>, rs: seq<Response>, with: int -> (Response -> bool))
  {
    forall status :: At(m, status) == Count(rs, with(status))
  }

  ghost predicate Sums(t: Totals, rs: seq<Response>, bound: real)
  {
    && t.sent == |rs| && t.completed == Count(rs, Finished) && t.errors == Count(rs, Failed)
    && t.before == Count(rs, Before) && t.after == Count(rs, After) && t.afterUnavailable == Count(rs, Refused)
    && Counted(t.beforeStatuses, rs, BeforeWith) && Counted(t.afterStatuses, rs, AfterWith)
    && t.anomalies == Those(rs, Anomaly(bound))
  }

  /** The flags and the maximum say what they should of the responses. */
  ghost predicate Judges(t: Totals, rs: seq<Response>, bound: real)
  {
    && (t.allWithinBound <==> forall i :: 0 <= i < |rs| ==> rs[i].answer.duration <= bound)
    && (forall i :: 0 <= i < |rs| ==> rs[i].answer.duration <= t.maxDuration)
    && (t.maxDuration == 0.0 || exists i :: 0 <= i < |rs| && rs[i].answer.duration == t.maxDuration)
  }

  lemma CountSnoc(rs: seq<Response>, r: Response, p: Response -> bool)
    ensures Count(rs + [r], p) == Count(rs, p) + (if p(r) then 1 else 0)
    ensures Those(rs + [r], p) == Those(rs, p) + (if p(r) then [r] else [])
  {
    assert (rs + [r])[..|rs|] == rs;
  }

  function Bump(m: map<int, nat>, status: int): map<int, nat>
  {
    m[status := At(m, status) + 1]
  }

  method Aggregate(rs: seq<Response>, bound: real) returns (t: Totals)
    ensures Sums(t, rs, bound) && Judges(t, rs, bound)
    ensures t.allAfterRefused <==> t.after > 0 && t.afterUnavailable == t.after
  {
    t := Totals(|rs|, 0, 0, 0, map[], 0, 0, map[], 0.0, true, true, []);
    for i := 0 to |rs|
      invariant Sums(t.(sent := i), rs[..i], bound) && Judges(t, rs[..i], bound) && t.sent == |rs|
      invariant t.afterUnavailable <= t.after && (t.allAfterRefused <==> t.afterUnavailable == t.after)
    {
      assert rs[..i + 1] == rs[..i] + [rs[i]];
      AddedSums(t, rs[..i], rs[i], bound);
      JudgesSnoc(t, Added(t, rs[i], bound), rs[..i], rs[i], bound);
      t := AddOne(t, rs[i], bound);
    }
    assert rs[..|rs|] == rs;
    if t.after == 0 {
      t := t.(allAfterRefused := false);
    }
  }

  function One(b: bool): nat
  {
    if b then 1 else 0
  }

  /** The totals with one more response. */
  function Added(t: Totals, r: Response, bound: real): Totals
  {
    CountedIn(t, r).(maxDuration := if r.answer.duration > t.maxDuration then r.answer.duration else t.maxDuration,
                     allWithinBound := t.allWithinBound && r.answer.duration <= bound,
                     allAfterRefused := t.allAfterRefused && (r.afterStrike ==> IsRefusal(r.answer)),
                     anomalies := t.anomalies + if r.answer.duration > bound || (r.afterStrike && !IsRefusal(r.answer)) then [r] else [])
  }

  predicate IsRefusal(a: Answer)
  {
    !a.error && a.status == UNAVAILABLE && a.down
  }

  function CountedIn(t: Totals, r: Response): Totals
  {
    t.(completed := t.completed + One(!r.answer.error), errors := t.errors + One(r.answer.error),
       before := t.before + One(!r.afterStrike), after := t.after + One(r.afterStrike),
       afterUnavailable := t.afterUnavailable + One(r.afterStrike && IsRefusal(r.answer)),
       beforeStatuses := if r.afterStrike then t.beforeStatuses else Bump(t.beforeStatuses, r.answer.status),
       afterStatuses := if !r.afterStrike then t.afterStatuses else Bump(t.afterStatuses, r.answer.status))
  }

  method AddOne(t: Totals, r: Response, bound: real) returns (t': Totals)
    ensures t' == Added(t, r, bound)
  {
    var anomaly := r.answer.duration > bound;
    t' := CountIn(t, r);
    t' := t'.(maxDuration := if r.answer.duration > t.maxDuration then r.answer.duration else t.maxDuration, allWithinBound := t.allWithinBound && !anomaly);
    if r.afterStrike && !IsRefusal(r.answer) {
      t' := t'.(allAfterRefused := false);
      anomaly := true;
    }
    if anomaly {
      t' := t'.(anomalies := t.anomalies + [r]);
    }
  }

  /** The counters only. */
  method CountIn(t: Totals, r: Response) returns (t': Totals)
    ensures t' == CountedIn(t, r)
  {
    t' := if r.answer.error then t.(errors := t.errors + 1) else t.(completed := t.completed + 1);
    if !r.afterStrike {
      t' := t'.(before := t.before + 1, beforeStatuses := Bump(t.beforeStatuses, r.answer.status));
    } else {
      t' := t'.(after := t.after + 1, afterStatuses := Bump(t.afterStatuses, r.answer.status));
      if IsRefusal(r.answer) {
        t' := t'.(afterUnavailable := t.afterUnavailable + 1);
      }
    }
  }

  lemma AddedSums(t: Totals, rs: seq<Response>, r: Response, bound: real)
    requires Sums(t.(sent := |rs|), rs, bound)
    ensures Sums(Added(t, r, bound).(sent := |rs| + 1), rs + [r], bound)
  {
    CountsSnoc(rs, r, bound);
    StatusesSnoc(t, Added(t, r, bound), rs, r);
  }

  lemma CountsSnoc(rs: seq<Response>, r: Response, bound: real)
    ensures Count(rs + [r], Finished) == Count(rs, Finished) + (if Finished(r) then 1 else 0)
    ensures Count(rs + [r], Failed) == Count(rs, Failed) + (if Failed(r) then 1 else 0)
    ensures Count(rs + [r], Before) == Count(rs, Before) + (if Before(r) then 1 else 0)
    ensures Count(rs + [r], After) == Count(rs, After) + (if After(r) then 1 else 0)
    ensures Count(rs + [r], Refused) == Count(rs, Refused) + (if Refused(r) then 1 else 0)
    ensures Those(rs + [r], Anomaly(bound)) == Those(rs, Anomaly(bound)) + (if Anomaly(bound)(r) then [r] else [])
  {
    CountSnoc(rs, r, Finished);
    CountSnoc(rs, r, Failed);
    CountSnoc(rs, r, Before);
    CountSnoc(rs, r, After);
    CountSnoc(rs, r, Refused);
    CountSnoc(rs, r, Anomaly(bound));
  }

  lemma StatusesSnoc(t: Totals, t': Totals, rs: seq<Response>, r: Response)
    requires Counted(t.beforeStatuses, rs, BeforeWith) && Counted(t.afterStatuses, rs, AfterWith)
    requires t'.beforeStatuses == if After(r) then t.beforeStatuses else Bump(t.beforeStatuses, r.answer.status)
    requires t'.afterStatuses == if Before(r) then t.afterStatuses else Bump(t.afterStatuses, r.answer.status)
    ensures Counted(t'.beforeStatuses, rs + [r], BeforeWith) && Counted(t'.afterStatuses, rs + [r], AfterWith)
  {
    forall status
      ensures At(t'.beforeStatuses, status) == Count(rs + [r], BeforeWith(status))
    {
      CountSnoc(rs, r, BeforeWith(status));
      assert At(t.beforeStatuses, status) == Count(rs, BeforeWith(status));
    }
    forall status
      ensures At(t'.afterStatuses, status) == Count(rs + [r], AfterWith(status))
    {
      CountSnoc(rs, r, AfterWith(status));
      assert At(t.afterStatuses, status) == Count(rs, AfterWith(status));
    }
  }

  lemma JudgesSnoc(t: Totals, t': Totals, rs: seq<Response>, r: Response, bound: real)
    requires Judges(t, rs, bound)
    requires t'.maxDuration == if r.answer.duration > t.maxDuration then r.answer.duration else t.maxDuration
    requires t'.allWithinBound == (t.allWithinBound && r.answer.duration <= bound)
    ensures Judges(t', rs + [r], bound)
  {
    var more := rs + [r];
    assert more[|rs|] == r && forall i :: 0 <= i < |rs| ==> more[i] == rs[i];
    if t'.maxDuration != 0.0 && t'.maxDuration == t.maxDuration {
      var i :| 0 <= i < |rs| && rs[i].answer.duration == t.maxDuration;
      assert more[i].answer.duration == t'.maxDuration;
    }
  }

  // ---- What the totals say ---------------------------------------------------------------------------

  /** Two kinds of which every response is exactly one, and one kind within another. */
  lemma {:induction false} CountSplit(rs: seq<Response>, p: Response -> bool, q: Response -> bool)
    requires forall r :: p(r) <==> !q(r)
    ensures Count(rs, p) + Count(rs, q) == |rs|
  {
    if rs != [] {
      CountSplit(rs[..|rs| - 1], p, q);
    }
  }

  lemma {:induction false} CountWithin(rs: seq<Response>, p: Response -> bool, q: Response -> bool)
    requires forall r :: p(r) ==> q(r)
    ensures Count(rs, p) <= Count(rs, q)
    ensures Count(rs, p) == Count(rs, q) <==> forall i :: 0 <= i < |rs| && q(rs[i]) ==> p(rs[i])
  {
    if rs != [] {
      CountWithin(rs[..|rs| - 1], p, q);
    }
  }

  lemma {:induction false} CountPositive(rs: seq<Response>, p: Response -> bool)
    ensures Count(rs, p) > 0 <==> exists i :: 0 <= i < |rs| && p(rs[i])
  {
    if rs != [] {
      CountPositive(rs[..|rs| - 1], p);
    }
  }

  /** Nothing is lost, and the verdict says what its name says: something was sent after the strike, and all of
      that was refused as unavailable. */
  lemma TotalsConserve(t: Totals, rs: seq<Response>, bound: real)
    requires Sums(t, rs, bound) && (t.allAfterRefused <==> t.after > 0 && t.afterUnavailable == t.after)
    ensures t.sent == t.completed + t.errors == t.before + t.after && t.afterUnavailable <= t.after
    ensures t.allAfterRefused <==>
            (exists i :: 0 <= i < |rs| && After(rs[i])) && forall i :: 0 <= i < |rs| && After(rs[i]) ==> Refused(rs[i])
  {
    CountSplit(rs, Finished, Failed);
    CountSplit(rs, Before, After);
    CountWithin(rs, Refused, After);
    CountPositive(rs, After);
  }

  lemma {:induction false} ThoseIsFlatMap(rs: seq<Response>, p: Response -> bool, f: Response -> seq<Response>)
    requires forall r :: f(r) == if p(r) then [r] else []
    ensures Those(rs, p) == FlatMap(rs, f) && |Those(rs, p)| == Count(rs, p)
  {
    if rs != [] {
      ThoseIsFlatMap(rs[..|rs| - 1], p, f);
    }
  }

  /** The order in which the responses were recorded does not matter for any count. */
  lemma CountIgnoresOrder(rs: seq<Response>, qs: seq<Response>, p: Response -> bool)
    requires multiset(rs) == multiset(qs)
    ensures Count(rs, p) == Count(qs, p)
  {
    var f := (r: Response) => if p(r) then [r] else [];
    ThoseIsFlatMap(rs, p, f);
    ThoseIsFlatMap(qs, p, f);
    FlatMapPermutes(rs, qs, f);
    assert |FlatMap(rs, f)| == |multiset(FlatMap(rs, f))|;
  }

  lemma {:induction false} CountAgrees(rs: seq<Response>, p: Response -> bool, q: Response -> bool)
    requires forall i :: 0 <= i < |rs| ==> (p(rs[i]) <==> q(rs[i]))
    ensures Count(rs, p) == Count(rs, q)
  {
    if rs != [] {
      CountAgrees(rs[..|rs| - 1], p, q);
    }
  }

  /** For every schedule of the workers and the striker, and whatever order the responses are then sorted into:
      the responses counted as after the strike are exactly those started later than the strike, and the totals
      conserve. */
  lemma BurstIsCountedRightly(now: int, acts: seq<Action>, s: State, rs: seq<Response>, t: Totals, bound: real)
    requires Run(Initial(now), acts) == Some(s) && multiset(rs) == multiset(s.responses)
    requires Sums(t, rs, bound) && (t.allAfterRefused <==> t.after > 0 && t.afterUnavailable == t.after)
    ensures t.after == Count(s.responses, r => StartedAfter(s.struckAt, r))
    ensures t.sent == |s.responses| == t.before + t.after == t.completed + t.errors
  {
    RunKeepsInv(Initial(now), acts, s);
    CountIgnoresOrder(rs, s.responses, After);
    CountAgrees(s.responses, After, r => StartedAfter(s.struckAt, r));
    TotalsConserve(t, rs, bound);
    assert |rs| == |multiset(rs)| && |s.responses| == |multiset(s.responses)|;
  }
}
