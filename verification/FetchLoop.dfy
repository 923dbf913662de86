/**
 * FETCH as a function of the world: waiting for full text while papers succeed, fail and are replaced, for any
 * answers to enqueue requests, any messages and database rows in any order, and any clock.
 */
module FetchLoop {
  import opened Common

  type Id = string

  /** A result in the source is the string "ready" or anything else. */
  datatype Result = Ready | Unavailable

  datatype Answer = Queued | AlreadyReady | InProgress | AbstractOnly | NotFound

  /** One turn of the waiting loop. */
  datatype Turn = Turn(message: Option<(Id, Result)>, rows: seq<(Id, Result)>, cancelled: bool)

  /** Everything the loop is told from outside; `now` gives the successive readings of the clock. */
  datatype World = World(now: nat -> real, answer: (nat, Id) -> Answer, turns: seq<Turn>)

  /** What does not change while FETCH waits. */
  datatype Terms = Terms(
    candidates: seq<Id>, minimum: int, spare: int, papers: nat, mandatoryStop: real, budgetStop: real)

  datatype Plan = Plan(goal: int, ready: int, failed: seq<Id>, pending: seq<Id>, queued: nat)

  /** `before` is how many papers were ready when the last asking began. */
  datatype Wait = Wait(plan: Plan, readings: nat, requests: nat, before: int)

  datatype Stop = NothingToFetch | TimeLimit | AllReady | NoMore | SafetyStop | Cancelled | StillWaiting

  datatype End = End(stop: Stop, wait: Wait)

  predicate Reached(t: Terms, p: Plan) { p.ready >= t.minimum }

  predicate Done(p: Plan) { p.ready >= p.goal }

  predicate Exhausted(t: Terms, p: Plan) { p.pending == [] && p.queued >= |t.candidates| }

  /** All that is wanted has been asked for: the goal is met, enough papers are pending, or there are no more. */
  predicate Asked(t: Terms, p: Plan) {
    Done(p) || |p.pending| >= p.goal - p.ready + t.spare || p.queued == |t.candidates|
  }

  function Removed(s: seq<Id>, x: Id): seq<Id>
    requires x in s
  {
    if s[0] == x then s[1..] else [s[0]] + Removed(s[1..], x)
  }

  // ----- what the steps of the loop do -----------------------------------------------------------------------------

  /** next_batch: how far the candidates are queued afterwards. */
  function BatchEnd(candidates: seq<Id>, spare: int, p: Plan): (end: nat)
    requires p.queued <= |candidates|
    ensures p.queued <= end <= |candidates|
  {
    var want := Max(0, p.goal - p.ready) + spare - |p.pending|;
    if p.ready >= p.goal || want <= 0 then p.queued else Min(p.queued + want, |candidates|)
  }

  function Batch(candidates: seq<Id>, spare: int, p: Plan): seq<Id>
    requires p.queued <= |candidates|
  {
    candidates[p.queued..BatchEnd(candidates, spare, p)]
  }

  function WithBatch(candidates: seq<Id>, spare: int, p: Plan): Plan
    requires p.queued <= |candidates|
  {
    p.(queued := BatchEnd(candidates, spare, p), pending := p.pending + Batch(candidates, spare, p))
  }

  /** finish */
  function Finished(p: Plan, x: Id, result: Result): (r: Plan)
    ensures r.queued == p.queued && r.goal == p.goal && r.ready >= p.ready
  {
    if x !in p.pending then p
    else if result.Ready? then p.(pending := Removed(p.pending, x), ready := p.ready + 1)
    else p.(pending := Removed(p.pending, x), failed := p.failed + [x])
  }

  /** What enqueue_fulltext answers about one paper. */
  function Settled(p: Plan, x: Id, answer: Answer): (r: Plan)
    ensures r.queued == p.queued && r.goal == p.goal && r.ready >= p.ready
  {
    match answer
    case AlreadyReady => Finished(p, x, Ready)
    case AbstractOnly => Finished(p, x, Unavailable)
    case NotFound => Finished(p, x, Unavailable)
    case _ => p
  }

  /** The first k of a batch, with the answers of the n-th request. */
  function SettledAll(w: World, n: nat, p: Plan, batch: seq<Id>, k: nat): (r: Plan)
    requires k <= |batch|
    ensures r.queued == p.queued && r.goal == p.goal && r.ready >= p.ready
  {
    if k == 0 then p else Settled(SettledAll(w, n, p, batch, k - 1), batch[k - 1], w.answer(n, batch[k - 1]))
  }

  /** enqueue */
  function Enqueued(t: Terms, w: World, s: Wait): (r: Wait)
    requires s.plan.queued <= |t.candidates|
    ensures r.plan.queued <= |t.candidates| && r.plan.goal == s.plan.goal && r.plan.ready >= s.plan.ready
    ensures r.readings == s.readings && r.before == s.before && Asked(t, r.plan)
    decreases |t.candidates| - s.plan.queued
  {
    if BatchEnd(t.candidates, t.spare, s.plan) == s.plan.queued then s else Enqueued(t, w, Requested(t, w, s))
  }

  /** One request of enqueue: a batch, and the answers to it. */
  function Requested(t: Terms, w: World, s: Wait): (r: Wait)
    requires s.plan.queued <= |t.candidates|
    ensures r.plan.queued == BatchEnd(t.candidates, t.spare, s.plan) && r.plan.goal == s.plan.goal
    ensures r.plan.ready >= s.plan.ready && r.readings == s.readings && r.before == s.before
  {
    var batch, n := Batch(t.candidates, t.spare, s.plan), s.requests + 1;
    s.(plan := SettledAll(w, n, WithBatch(t.candidates, t.spare, s.plan), batch, |batch|), requests := n)
  }

  /** update_goal */
  function Updated(t: Terms, w: World, s: Wait): Wait {
    if !Reached(t, s.plan) then s
    else if w.now(s.readings) < t.budgetStop then
      s.(readings := s.readings + 1, plan := s.plan.(goal := Max(s.plan.goal, t.papers)))
    else s.(readings := s.readings + 1)
  }

  /** update_goal, then enqueue. */
  function Asking(t: Terms, w: World, s: Wait): Wait
    requires s.plan.queued <= |t.candidates|
  {
    Enqueued(t, w, Updated(t, w, s.(before := s.plan.ready)))
  }

  /** fetch_stop_at: below the minimum only the safety stop ends the wait, above it the time budget. */
  function StopAt(t: Terms, p: Plan): real { if Reached(t, p) then t.budgetStop else t.mandatoryStop }

  function FinishedAll(p: Plan, rows: seq<(Id, Result)>, k: nat): (r: Plan)
    requires k <= |rows|
    ensures r.queued == p.queued && r.goal == p.goal && r.ready >= p.ready
  {
    if k == 0 then p else Finished(FinishedAll(p, rows, k - 1), rows[k - 1].0, rows[k - 1].1)
  }

  predicate Changed(p: Plan, turn: Turn) {
    turn.rows != [] || (turn.message.Some? && turn.message.value.0 in p.pending)
  }

  /** A message, then the rows of the database check. */
  function Heard(p: Plan, turn: Turn): (r: Plan)
    ensures r.queued == p.queued && r.goal == p.goal && r.ready >= p.ready && (!Changed(p, turn) ==> r == p)
  {
    var q := if turn.message.Some? then Finished(p, turn.message.value.0, turn.message.value.1) else p;
    FinishedAll(q, turn.rows, |turn.rows|)
  }

  function Verdict(t: Terms, p: Plan): Stop {
    if p.ready >= t.papers then AllReady
    else if Exhausted(t, p) then NoMore
    else if Reached(t, p) then TimeLimit
    else SafetyStop
  }

  function AfterTurn(t: Terms, w: World, s: Wait, turn: Turn): (r: Wait)
    requires s.plan.queued <= |t.candidates|
    ensures r.plan.queued <= |t.candidates|
  {
    var heard := s.(plan := Heard(s.plan, turn));
    if Changed(s.plan, turn) then Asking(t, w, heard) else heard
  }

  /** The waiting loop, from turn i on. */
  function Waits(t: Terms, w: World, s: Wait, i: nat): End
    requires s.plan.queued <= |t.candidates| && i <= |w.turns|
    decreases |w.turns| - i
  {
    if Done(s.plan) || Exhausted(t, s.plan) then End(Verdict(t, s.plan), s)
    else
      var read := s.(readings := s.readings + 1);
      if w.now(s.readings) >= StopAt(t, s.plan) then End(Verdict(t, s.plan), read)
      else if i == |w.turns| then End(StillWaiting, read)
      else
        var next := AfterTurn(t, w, read, w.turns[i]);
        if w.turns[i].cancelled then End(Cancelled, next) else Waits(t, w, next, i + 1)
  }

  /** The clock is read unless there is nothing to wait for. */
  function Tested(t: Terms, s: Wait): Wait {
    if Done(s.plan) || Exhausted(t, s.plan) then s else s.(readings := s.readings + 1)
  }

  /** keep_waiting */
  predicate GoesOn(t: Terms, w: World, s: Wait) {
    !Done(s.plan) && !Exhausted(t, s.plan) && w.now(s.readings) < StopAt(t, s.plan)
  }

  function NextWait(t: Terms, w: World, s: Wait, i: nat): Wait
    requires s.plan.queued <= |t.candidates| && i < |w.turns|
  {
    AfterTurn(t, w, Tested(t, s), w.turns[i])
  }

  lemma {:induction false} WaitUnfolds(t: Terms, w: World, s: Wait, i: nat)
    requires s.plan.queued <= |t.candidates| && i <= |w.turns|
    ensures Waits(t, w, s, i)
         == if !GoesOn(t, w, s) then End(Verdict(t, s.plan), Tested(t, s))
            else if i == |w.turns| then End(StillWaiting, Tested(t, s))
            else if w.turns[i].cancelled then End(Cancelled, NextWait(t, w, s, i))
            else Waits(t, w, NextWait(t, w, s, i), i + 1)
  {}

  function Start(t: Terms, ready: int): Wait { Wait(Plan(t.minimum, ready, [], [], 0), 1, 0, ready) }

  /** step_fetch, with `ready` papers that have full text; the first reading of the clock is its start. */
  function Fetch(t: Terms, ready: int, w: World): End {
    var s := Start(t, ready);
    if t.candidates == [] then End(NothingToFetch, s)
    else if Reached(t, s.plan) && w.now(0) >= t.budgetStop then End(TimeLimit, s)
    else Waits(t, w, Asking(t, w, s), 0)
  }

  // ----- how it ends -----------------------------------------------------------------------------------------------

  /** The clock, when it was last read, showed x or later. */
  predicate Showed(w: World, s: Wait, x: real) { s.readings > 0 && w.now(s.readings - 1) >= x }

  /** It showed x or later on some reading. */
  ghost predicate HasShown(w: World, s: Wait, x: real) { exists j: nat :: j < s.readings && w.now(j) >= x }

  /** The minimum was reached by the last asking itself: the papers turned out to be ready. */
  predicate Crossed(t: Terms, s: Wait) { s.before < t.minimum <= s.plan.ready }

  /**
   * The goal is the minimum until an asking begins with the minimum reached, and is then every paper, unless the clock
   * has shown the end of the time budget.
   */
  ghost predicate Aims(t: Terms, w: World, s: Wait) {
    && s.plan.queued <= |t.candidates| && t.minimum <= t.papers && s.before <= s.plan.ready
    && (s.plan.goal == t.minimum || (s.plan.goal == t.papers && s.before >= t.minimum))
    && (s.before >= t.minimum ==> s.plan.goal == t.papers || HasShown(w, s, t.budgetStop))
  }

  lemma {:induction false} ShownBefore(w: World, s: Wait, r: Wait, x: real)
    requires HasShown(w, s, x) && s.readings <= r.readings
    ensures HasShown(w, r, x)
  {
    var j: nat :| j < s.readings && w.now(j) >= x;
    assert j < r.readings;
  }

  lemma {:induction false} AskingAims(t: Terms, w: World, s: Wait)
    requires s.plan.queued <= |t.candidates| && t.minimum <= t.papers
    requires s.plan.goal == t.minimum || (s.plan.goal == t.papers && s.plan.ready >= t.minimum)
    ensures Aims(t, w, Asking(t, w, s)) && Asked(t, Asking(t, w, s).plan)
    ensures Asking(t, w, s).readings >= s.readings
  {
    var u := Updated(t, w, s.(before := s.plan.ready));
    if Reached(t, s.plan) && w.now(s.readings) >= t.budgetStop {
      assert HasShown(w, u, t.budgetStop);
      ShownBefore(w, u, Enqueued(t, w, u), t.budgetStop);
    }
  }

  /** What each way of ending means, for a wait that began with turn i and `readings` readings of the clock. */
  ghost predicate Means(t: Terms, w: World, e: End, i: nat, readings: nat)
    requires i <= |w.turns|
  {
    var s, p := e.wait, e.wait.plan;
    && Asked(t, p) && p.queued <= |t.candidates|
    && match e.stop
       case Cancelled => exists k :: i <= k < |w.turns| && w.turns[k].cancelled
       case StillWaiting =>
         && (forall k :: i <= k < |w.turns| ==> !w.turns[k].cancelled)
         && !Done(p) && !Exhausted(t, p) && !Crossed(t, s) && s.readings > readings + (|w.turns| - i)
         && w.now(s.readings - 1) < StopAt(t, p)
       case _ =>
         && e.stop == Verdict(t, p)
         && (e.stop == SafetyStop ==> Showed(w, s, t.mandatoryStop))
         && (e.stop == TimeLimit ==> HasShown(w, s, t.budgetStop) || Crossed(t, s))
  }

  lemma {:induction false} LateVerdict(t: Terms, w: World, s: Wait, i: nat)
    requires Aims(t, w, s) && Asked(t, s.plan) && i <= |w.turns|
    requires !Done(s.plan) && !Exhausted(t, s.plan) && w.now(s.readings) >= StopAt(t, s.plan)
    ensures Means(t, w, Waits(t, w, s, i), i, s.readings)
  {
    var read := Waits(t, w, s, i).wait;
    assert Showed(w, read, StopAt(t, s.plan));
    if Reached(t, s.plan) { assert HasShown(w, read, t.budgetStop); }
  }

  lemma {:induction false} DoneVerdict(t: Terms, w: World, s: Wait, i: nat)
    requires Aims(t, w, s) && Asked(t, s.plan) && i <= |w.turns| && (Done(s.plan) || Exhausted(t, s.plan))
    ensures Means(t, w, Waits(t, w, s, i), i, s.readings)
  {}

  lemma {:induction false} TurnAims(t: Terms, w: World, s: Wait, i: nat)
    requires Aims(t, w, s) && Asked(t, s.plan) && i < |w.turns|
    requires GoesOn(t, w, s)
    ensures var r := NextWait(t, w, s, i);
            Aims(t, w, r) && Asked(t, r.plan) && r.readings > s.readings
  {
    var read, turn := Tested(t, s), w.turns[i];
    if Changed(s.plan, turn) {
      AskingAims(t, w, read.(plan := Heard(s.plan, turn)));
    } else if HasShown(w, s, t.budgetStop) {
      ShownBefore(w, s, read, t.budgetStop);
    }
  }

  lemma {:induction false} WaitMeans(t: Terms, w: World, s: Wait, i: nat)
    requires Aims(t, w, s) && Asked(t, s.plan) && i <= |w.turns|
    ensures Means(t, w, Waits(t, w, s, i), i, s.readings)
    decreases |w.turns| - i
  {
    if Done(s.plan) || Exhausted(t, s.plan) {
      DoneVerdict(t, w, s, i);
    } else if w.now(s.readings) >= StopAt(t, s.plan) {
      LateVerdict(t, w, s, i);
    } else if i == |w.turns| {
      StillMeans(t, w, s);
    } else {
      var next := NextWait(t, w, s, i);
      TurnAims(t, w, s, i);
      WaitUnfolds(t, w, s, i);
      if !w.turns[i].cancelled {
        WaitMeans(t, w, next, i + 1);
        MeansBefore(t, w, Waits(t, w, next, i + 1), i, s.readings, next.readings);
      } else {
        CancelMeans(t, w, next, i, s.readings);
      }
    }
  }

  lemma {:induction false} StillMeans(t: Terms, w: World, s: Wait)
    requires Aims(t, w, s) && Asked(t, s.plan) && !Done(s.plan) && !Exhausted(t, s.plan)
    requires w.now(s.readings) < StopAt(t, s.plan)
    ensures Means(t, w, Waits(t, w, s, |w.turns|), |w.turns|, s.readings)
  {}

  lemma {:induction false} CancelMeans(t: Terms, w: World, s: Wait, i: nat, readings: nat)
    requires Aims(t, w, s) && Asked(t, s.plan) && i < |w.turns| && w.turns[i].cancelled
    ensures Means(t, w, End(Cancelled, s), i, readings)
  {}

  lemma {:induction false} MeansBefore(t: Terms, w: World, e: End, i: nat, readings: nat, later: nat)
    requires i < |w.turns| && !w.turns[i].cancelled && readings < later && Means(t, w, e, i + 1, later)
    ensures Means(t, w, e, i, readings)
  {}

  /** FETCH is cut short only by a cancellation that was there, and otherwise for the reason it gives. */
  lemma {:induction false} FetchMeans(t: Terms, ready: int, w: World)
    requires t.candidates != [] && t.minimum <= t.papers
    requires !(Reached(t, Start(t, ready).plan) && w.now(0) >= t.budgetStop)
    ensures Means(t, w, Fetch(t, ready, w), 0, 1)
  {
    var s := Asking(t, w, Start(t, ready));
    AskingAims(t, w, Start(t, ready));
    WaitMeans(t, w, s, 0);
    MeansEarlier(t, w, Waits(t, w, s, 0), s.readings);
  }

  lemma {:induction false} MeansEarlier(t: Terms, w: World, e: End, readings: nat)
    requires readings >= 1 && Means(t, w, e, 0, readings)
    ensures Means(t, w, e, 0, 1)
  {}

  /**
   * Below the minimum FETCH ends only when nothing more can be fetched, when it was cancelled, or when the clock, read
   * last, was past the safety stop; else every turn has been waited for and the clock is short of it.
   */
  lemma {:induction false} BelowTheMinimum(t: Terms, ready: int, w: World)
    requires t.minimum <= t.papers && !Reached(t, Fetch(t, ready, w).wait.plan)
    ensures var e := Fetch(t, ready, w);
            || Exhausted(t, e.wait.plan)
            || (e.stop == Cancelled && exists k :: 0 <= k < |w.turns| && w.turns[k].cancelled)
            || (e.stop == SafetyStop && Showed(w, e.wait, t.mandatoryStop))
            || (e.stop == StillWaiting && e.wait.readings > |w.turns| && !Showed(w, e.wait, t.mandatoryStop))
  {
    if t.candidates != [] { FetchMeans(t, ready, w); }
  }

  /**
   * The exact case in which the time limit is named with time left: the last asking itself crossed the minimum, and
   * papers are still missing that could be fetched.
   */
  lemma {:induction false} TimeLimitWithTimeLeftIff(t: Terms, ready: int, w: World)
    requires t.minimum <= t.papers && !HasShown(w, Fetch(t, ready, w).wait, t.budgetStop)
    ensures var e := Fetch(t, ready, w);
            e.stop == TimeLimit <==>
              && Crossed(t, e.wait) && e.stop != Cancelled
              && e.wait.plan.ready < t.papers && !Exhausted(t, e.wait.plan)
  {
    if t.candidates != [] && !(Reached(t, Start(t, ready).plan) && w.now(0) >= t.budgetStop) {
      FetchMeans(t, ready, w);
    }
  }

  /** Every paper turns out to be ready while it is asked for. */
  ghost predicate EachReady(w: World) { forall n, x :: w.answer(n, x) == AlreadyReady }

  lemma {:induction false} SettledReady(w: World, n: nat, p: Plan, k: nat)
    requires EachReady(w) && k <= |p.pending|
    ensures SettledAll(w, n, p, p.pending, k) == p.(pending := p.pending[k..], ready := p.ready + k)
  {
    if k > 0 { SettledReady(w, n, p, k - 1); }
  }

  lemma {:induction false} EnqueuedReady(t: Terms, w: World, s: Wait)
    requires EachReady(w) && t.spare == 0 && s.plan.pending == [] && s.plan.queued <= |t.candidates|
    requires 0 < s.plan.goal - s.plan.ready <= |t.candidates| - s.plan.queued
    ensures Enqueued(t, w, s).plan ==
        s.plan.(ready := s.plan.goal, queued := s.plan.queued + s.plan.goal - s.plan.ready)
  {
    var p, n := WithBatch(t.candidates, t.spare, s.plan), s.requests + 1;
    assert p.pending == Batch(t.candidates, t.spare, s.plan);
    SettledReady(w, n, p, |p.pending|);
    assert BatchEnd(t.candidates, t.spare, SettledAll(w, n, p, p.pending, |p.pending|)) == p.queued;
  }

  /** It happens: if every paper turns out to be ready, FETCH stops at the minimum, whatever the clock shows. */
  lemma {:induction false} StopsAtTheMinimum(t: Terms, ready: int, w: World)
    requires EachReady(w) && t.spare == 0 && 0 < t.minimum - ready < |t.candidates| && t.minimum < t.papers
    ensures var e := Fetch(t, ready, w);
            && e.stop == TimeLimit && e.wait.plan.ready == t.minimum && e.wait.plan.queued < |t.candidates|
            && Crossed(t, e.wait)
  {
    EnqueuedReady(t, w, Start(t, ready));
  }

  // ----- one fate for every paper ----------------------------------------------------------------------------------

  lemma {:induction false} RemovedIs(s: seq<Id>, x: Id)
    requires x in s
    ensures |Removed(s, x)| == |s| - 1 && multiset(s) == multiset(Removed(s, x)) + multiset{x}
  {
    assert s == [s[0]] + s[1..];
    if s[0] != x { RemovedIs(s[1..], x); }
  }

  /**
   * Every queued paper is pending, failed or gained, `ready` counting the gained ones beside those there at first;
   * and no more are pending than the goal needs, with spares.
   */
  ghost predicate Fates(t: Terms, ready: int, p: Plan) {
    && p.queued <= |t.candidates| && p.ready - ready + |p.failed| + |p.pending| == p.queued
    && multiset(p.failed) + multiset(p.pending) <= multiset(t.candidates[..p.queued])
    && |p.pending| <= Max(0, Max(0, p.goal - p.ready) + t.spare)
  }

  lemma {:induction false} FinishedFates(t: Terms, ready: int, p: Plan, x: Id, result: Result)
    requires Fates(t, ready, p)
    ensures Fates(t, ready, Finished(p, x, result))
  {
    if x in p.pending { RemovedIs(p.pending, x); }
  }

  lemma {:induction false} SettledFates(t: Terms, ready: int, w: World, n: nat, p: Plan, batch: seq<Id>, k: nat)
    requires k <= |batch| && Fates(t, ready, p)
    ensures Fates(t, ready, SettledAll(w, n, p, batch, k))
  {
    if k > 0 {
      SettledFates(t, ready, w, n, p, batch, k - 1);
      var q, x := SettledAll(w, n, p, batch, k - 1), batch[k - 1];
      FinishedFates(t, ready, q, x, Ready);
      FinishedFates(t, ready, q, x, Unavailable);
    }
  }

  lemma {:induction false} BatchFates(t: Terms, ready: int, p: Plan)
    requires Fates(t, ready, p)
    ensures Fates(t, ready, WithBatch(t.candidates, t.spare, p))
  {
    var batch, q := Batch(t.candidates, t.spare, p), WithBatch(t.candidates, t.spare, p);
    assert t.candidates[..q.queued] == t.candidates[..p.queued] + batch;
  }

  lemma {:induction false} EnqueuedFates(t: Terms, ready: int, w: World, s: Wait)
    requires Fates(t, ready, s.plan)
    ensures Fates(t, ready, Enqueued(t, w, s).plan)
    decreases |t.candidates| - s.plan.queued
  {
    if BatchEnd(t.candidates, t.spare, s.plan) != s.plan.queued {
      RequestedFates(t, ready, w, s);
      EnqueuedFates(t, ready, w, Requested(t, w, s));
    }
  }

  lemma {:induction false} RequestedFates(t: Terms, ready: int, w: World, s: Wait)
    requires Fates(t, ready, s.plan)
    ensures Fates(t, ready, Requested(t, w, s).plan)
  {
    var batch, p := Batch(t.candidates, t.spare, s.plan), WithBatch(t.candidates, t.spare, s.plan);
    BatchFates(t, ready, s.plan);
    SettledFates(t, ready, w, s.requests + 1, p, batch, |batch|);
  }

  lemma {:induction false} AskingFates(t: Terms, ready: int, w: World, s: Wait)
    requires Fates(t, ready, s.plan)
    ensures Fates(t, ready, Asking(t, w, s).plan)
  {
    EnqueuedFates(t, ready, w, Updated(t, w, s.(before := s.plan.ready)));
  }

  lemma {:induction false} RowsFates(t: Terms, ready: int, p: Plan, rows: seq<(Id, Result)>, k: nat)
    requires k <= |rows| && Fates(t, ready, p)
    ensures Fates(t, ready, FinishedAll(p, rows, k))
  {
    if k > 0 {
      RowsFates(t, ready, p, rows, k - 1);
      FinishedFates(t, ready, FinishedAll(p, rows, k - 1), rows[k - 1].0, rows[k - 1].1);
    }
  }

  lemma {:induction false} TurnFates(t: Terms, ready: int, w: World, s: Wait, turn: Turn)
    requires Fates(t, ready, s.plan)
    ensures Fates(t, ready, AfterTurn(t, w, s, turn).plan)
  {
    var told := if turn.message.Some? then Finished(s.plan, turn.message.value.0, turn.message.value.1) else s.plan;
    if turn.message.Some? { FinishedFates(t, ready, s.plan, turn.message.value.0, turn.message.value.1); }
    RowsFates(t, ready, told, turn.rows, |turn.rows|);
    AskingFates(t, ready, w, s.(plan := Heard(s.plan, turn)));
  }

  lemma {:induction false} WaitFates(t: Terms, ready: int, w: World, s: Wait, i: nat)
    requires Fates(t, ready, s.plan) && i <= |w.turns|
    ensures Fates(t, ready, Waits(t, w, s, i).wait.plan)
    decreases |w.turns| - i
  {
    if GoesOn(t, w, s) && i < |w.turns| {
      TurnFates(t, ready, w, Tested(t, s), w.turns[i]);
      if !w.turns[i].cancelled { WaitFates(t, ready, w, NextWait(t, w, s, i), i + 1); }
    }
    WaitUnfolds(t, w, s, i);
  }

  /** However FETCH ends: ready gained + failed + pending = queued, no paper twice, and pending within bounds. */
  lemma {:induction false} OneFateEach(t: Terms, ready: int, w: World, x: Id)
    requires Distinct(t.candidates)
    ensures var p := Fetch(t, ready, w).wait.plan;
            && p.queued <= |t.candidates| && p.ready - ready + |p.failed| + |p.pending| == p.queued
            && Distinct(p.pending) && multiset(p.failed)[x] + multiset(p.pending)[x] <= 1
            && (x in p.failed || x in p.pending ==> x in t.candidates[..p.queued])
            && |p.pending| <= Max(0, Max(0, p.goal - p.ready) + t.spare)
  {
    var s := Start(t, ready);
    assert t.candidates[..0] == [];
    AskingFates(t, ready, w, s);
    WaitFates(t, ready, w, Asking(t, w, s), 0);
    var p := Fetch(t, ready, w).wait.plan;
    assert Fates(t, ready, p);
    OneFate(t, p, x);
    forall i, j | 0 <= i < j < |p.pending| ensures p.pending[i] != p.pending[j] {
      if p.pending[i] == p.pending[j] {
        TwiceThere(p.pending, i, j);
        OneFate(t, p, p.pending[i]);
      }
    }
  }

  lemma {:induction false} OneFate(t: Terms, p: Plan, x: Id)
    requires Distinct(t.candidates) && p.queued <= |t.candidates|
    requires multiset(p.failed) + multiset(p.pending) <= multiset(t.candidates[..p.queued])
    ensures multiset(p.failed)[x] + multiset(p.pending)[x] <= 1
    ensures x in p.failed || x in p.pending ==> x in t.candidates[..p.queued]
  {
    var all := multiset(t.candidates[..p.queued]);
    DistinctOnce(t.candidates[..p.queued], x);
    assert (multiset(p.failed) + multiset(p.pending))[x] <= all[x];
    assert x in p.failed ==> multiset(p.failed)[x] > 0;
    assert x in p.pending ==> multiset(p.pending)[x] > 0;
  }

  lemma {:induction false} DistinctOnce(s: seq<Id>, x: Id)
    requires Distinct(s)
    ensures multiset(s)[x] <= 1
  {
    if s != [] {
      DistinctOnce(s[1..], x);
      assert s == [s[0]] + s[1..];
      if x == s[0] { assert x !in s[1..]; }
    }
  }

  lemma {:induction false} TwiceThere(s: seq<Id>, i: nat, j: nat)
    requires i < j < |s| && s[i] == s[j]
    ensures multiset(s)[s[i]] >= 2
  {
    assert s == s[..i] + [s[i]] + s[i + 1..j] + [s[j]] + s[j + 1..];
  }
}
