/**
 * FETCH as the source writes it: FetchPlan is the bookkeeping, and StepFetch the waiting loop; both do what the
 * functions of FetchLoop say.
 */
module FetchPlanning {
  import opened Common
  import opened FetchLoop

  function Ceil(x: real): int { -(-x).Floor }

  /** The share of the papers, rounded up; the small constant absorbs rounding in the product. */
  function FetchGoal(papers: nat, share: real): int {
    Ceil(papers as real * share - 0.000000001)
  }

  /** It is the least whole number not below the share (less one billionth), so it asks for at most all papers. */
  lemma {:induction false} GoalIsLeast(papers: nat, share: real, g: int)
    ensures g >= FetchGoal(papers, share) <==> g as real >= papers as real * share - 0.000000001
    ensures 0.0 <= share <= 1.0 ==> 0 <= FetchGoal(papers, share) <= papers
  {
    var x := papers as real * share - 0.000000001;
    var c := FetchGoal(papers, share);
    assert (-x).Floor as real <= -x < (-x).Floor as real + 1.0;
    assert c as real - 1.0 < x <= c as real;
    if 0.0 <= share <= 1.0 {
      assert 0.0 <= papers as real * share <= papers as real * 1.0;
    }
  }

  class FetchPlan {
    const candidates: seq<Id>
    const minimum: int
    const spare: int
    var goal: int
    var ready: int
    var failed: seq<Id>
    var pending: seq<Id>
    var queued: nat

    ghost predicate Valid() reads this { queued <= |candidates| }

    function View(): Plan reads this { Plan(goal, ready, failed, pending, queued) }

    constructor (candidates: seq<Id>, ready: int, goal: int, spare: int)
      ensures Valid() && this.candidates == candidates && this.spare == spare && minimum == goal
      ensures View() == Plan(goal, ready, [], [], 0)
    {
      this.candidates, this.minimum, this.goal, this.ready := candidates, goal, goal, ready;
      this.failed, this.pending, this.queued, this.spare := [], [], 0, spare;
    }

    predicate IsReached() reads this { ready >= minimum }

    predicate IsDone() reads this { ready >= goal }

    predicate IsExhausted() reads this { pending == [] && queued >= |candidates| }

    method NextBatch() returns (batch: seq<Id>)
      requires Valid()
      modifies this`queued, this`pending
      ensures Valid() && batch == Batch(candidates, spare, old(View()))
      ensures View() == WithBatch(candidates, spare, old(View()))
    {
      var want := Max(0, goal - ready) + spare - |pending|;
      if ready >= goal || want <= 0 {
        assert pending + [] == pending;
        return [];
      }
      batch := candidates[queued..Min(queued + want, |candidates|)];
      queued := queued + |batch|;
      pending := pending + batch;
    }

    method Finish(x: Id, result: Result)
      modifies this`pending, this`ready, this`failed
      ensures View() == Finished(old(View()), x, result)
      ensures x !in old(pending) ==> ready == old(ready) && failed == old(failed) && pending == old(pending)
      ensures x in old(pending) ==> multiset(pending) == multiset(old(pending)) - multiset{x}
      ensures x in old(pending) && result.Ready? ==> ready == old(ready) + 1 && failed == old(failed)
      ensures x in old(pending) && result.Unavailable? ==> ready == old(ready) && failed == old(failed) + [x]
    {
      if x !in pending { return; }
      RemovedIs(pending, x);
      pending := Removed(pending, x);
      if result.Ready? { ready := ready + 1; } else { failed := failed + [x]; }
    }

    method AimForAll(papers: nat)
      modifies this`goal
      ensures View() == old(View()).(goal := Max(old(goal), papers))
    {
      goal := Max(goal, papers);
    }
  }

  /** Short of its goal with nothing pending and papers left: it would wait for nothing until the time is up. */
  predicate Stuck(t: Terms, p: Plan) { !Done(p) && !Exhausted(t, p) && p.pending == [] }

  /** Once all that is wanted has been asked for, a plan with a spare count of at least zero is never stuck. */
  lemma {:induction false} NeverStuck(t: Terms, p: Plan)
    requires Asked(t, p) && p.queued <= |t.candidates| && t.spare >= 0
    ensures !Stuck(t, p)
  {}

  /** With any negative spare count a plan can be: one paper to go, none asked for. */
  method StuckWithNegativeSpare(spare: int) returns (plan: FetchPlan)
    requires spare < 0
    ensures var t := Terms(plan.candidates, plan.minimum, plan.spare, 1, 0.0, 0.0);
            plan.spare == spare && Asked(t, plan.View()) && Stuck(t, plan.View())
  {
    plan := new FetchPlan(["a"], 0, 1, spare);
    var batch := plan.NextBatch();
  }

  class Fetching {
    const plan: FetchPlan
    const world: World
    const papers: nat
    const mandatoryStop: real
    const budgetStop: real
    var readings: nat
    var requests: nat
    ghost var before: int  // how many were ready when the last asking began

    constructor (plan: FetchPlan, world: World, papers: nat, readings: nat, mandatoryStop: real, budgetStop: real)
      ensures this.plan == plan && this.world == world && this.papers == papers && this.readings == readings
      ensures this.mandatoryStop == mandatoryStop && this.budgetStop == budgetStop
      ensures View() == Wait(plan.View(), readings, 0, plan.ready)
    {
      this.plan, this.world, this.papers := plan, world, papers;
      this.mandatoryStop, this.budgetStop, this.readings, this.requests := mandatoryStop, budgetStop, readings, 0;
      this.before := plan.ready;
    }

    function Terms(): FetchLoop.Terms {
      FetchLoop.Terms(plan.candidates, plan.minimum, plan.spare, papers, mandatoryStop, budgetStop)
    }

    ghost function View(): Wait reads this, plan { Wait(plan.View(), readings, requests, before) }

    /** time.monotonic() */
    method Now() returns (now: real)
      modifies this`readings
      ensures readings == old(readings) + 1 && now == world.now(old(readings))
    {
      now := world.now(readings);
      readings := readings + 1;
    }

    method Enqueue()
      requires plan.Valid()
      modifies plan, this`requests
      ensures plan.Valid() && View() == Enqueued(Terms(), world, old(View()))
    {
      while true
        invariant plan.Valid() && readings == old(readings) && before == old(before)
        invariant Enqueued(Terms(), world, View()) == Enqueued(Terms(), world, old(View()))
        decreases |plan.candidates| - plan.queued
      {
        var batch := plan.NextBatch();
        if batch == [] { break; }
        requests := requests + 1;
        SettleAll(batch);
      }
    }

    method SettleAll(batch: seq<Id>)
      requires plan.Valid()
      modifies plan`pending, plan`ready, plan`failed
      ensures plan.Valid() && plan.View() == SettledAll(world, requests, old(plan.View()), batch, |batch|)
    {
      for i := 0 to |batch|
        invariant plan.Valid() && plan.View() == SettledAll(world, requests, old(plan.View()), batch, i)
      {
        var answer := world.answer(requests, batch[i]);
        if answer.AlreadyReady? {
          plan.Finish(batch[i], Ready);
        } else if answer.AbstractOnly? || answer.NotFound? {
          plan.Finish(batch[i], Unavailable);
        }
      }
    }

    method UpdateGoal()
      requires plan.Valid()
      modifies plan`goal, this`readings
      ensures plan.Valid() && View() == Updated(Terms(), world, old(View()))
    {
      if plan.IsReached() {
        var now := Now();
        if now < budgetStop { plan.AimForAll(papers); }
      }
    }

    method Ask()
      requires plan.Valid()
      modifies plan, this
      ensures plan.Valid() && View() == Asking(Terms(), world, old(View()))
    {
      before := plan.ready;
      UpdateGoal();
      Enqueue();
    }

    /** keep_waiting */
    method KeepWaiting() returns (wait: bool)
      requires plan.Valid()
      modifies this`readings
      ensures wait == GoesOn(Terms(), world, old(View())) && View() == Tested(Terms(), old(View()))
    {
      if plan.IsDone() || plan.IsExhausted() { return false; }
      var now := Now();
      wait := now < if plan.IsReached() then budgetStop else mandatoryStop;
    }

    method Hear(turn: Turn) returns (changed: bool)
      requires plan.Valid()
      modifies plan`pending, plan`ready, plan`failed
      ensures plan.Valid() && plan.View() == Heard(old(plan.View()), turn)
      ensures changed == Changed(old(plan.View()), turn)
    {
      changed := false;
      if turn.message.Some? {
        var (x, result) := turn.message.value;
        if x in plan.pending {
          plan.Finish(x, result);
          changed := true;
        }
      }
      ghost var told := plan.View();
      for i := 0 to |turn.rows|
        invariant plan.Valid() && plan.View() == FinishedAll(told, turn.rows, i)
      {
        plan.Finish(turn.rows[i].0, turn.rows[i].1);
      }
      changed := changed || turn.rows != [];
    }

    /** The loop of step_fetch, for as many turns as the world has. */
    method WaitForPapers() returns (stop: Stop)
      requires plan.Valid()
      modifies plan, this
      ensures plan.Valid() && End(stop, View()) == Waits(Terms(), world, Asking(Terms(), world, old(View())), 0)
    {
      Ask();
      stop := KeepListening();
    }

    method KeepListening() returns (stop: Stop)
      requires plan.Valid()
      modifies plan, this
      ensures plan.Valid() && End(stop, View()) == Waits(Terms(), world, old(View()), 0)
    {
      var i, over := 0, false;
      while true
        invariant 0 <= i <= |world.turns| && plan.Valid()
        invariant Waits(Terms(), world, View(), i) == Waits(Terms(), world, old(View()), 0)
        decreases |world.turns| - i
      {
        over, stop := ListenOnce(i);
        if over { return; }
        i := i + 1;
      }
    }

    method ListenOnce(i: nat) returns (over: bool, stop: Stop)
      requires plan.Valid() && i <= |world.turns|
      modifies plan, this
      ensures plan.Valid() && (i == |world.turns| ==> over)
      ensures Waits(Terms(), world, old(View()), i)
           == if over then End(stop, View()) else Waits(Terms(), world, View(), i + 1)
    {
      over, stop := true, StillWaiting;
      WaitUnfolds(Terms(), world, View(), i);
      var wait := KeepWaiting();
      if !wait {
        stop := Reason();
      } else if i < |world.turns| {
        TakeTurn(world.turns[i]);
        over, stop := world.turns[i].cancelled, Cancelled;
      }
    }

    method TakeTurn(turn: Turn)
      requires plan.Valid()
      modifies plan, this
      ensures plan.Valid() && View() == AfterTurn(Terms(), world, old(View()), turn)
    {
      var changed := Hear(turn);
      if changed { Ask(); }
    }

    method Reason() returns (stop: Stop)
      ensures stop == Verdict(Terms(), plan.View())
    {
      if plan.ready >= papers { stop := AllReady; }
      else if plan.IsExhausted() { stop := NoMore; }
      else if plan.IsReached() { stop := TimeLimit; }
      else { stop := SafetyStop; }
    }
  }

  datatype Hit = Hit(id: Id, ready: bool)

  function Missing(hits: seq<Hit>): seq<Id> {
    if hits == [] then [] else (if hits[0].ready then [] else [hits[0].id]) + Missing(hits[1..])
  }

  ghost predicate DistinctHits(hits: seq<Hit>) {
    forall i, j :: 0 <= i < j < |hits| ==> hits[i].id != hits[j].id
  }

  lemma {:induction false} DistinctCons(x: Id, s: seq<Id>)
    requires Distinct(s) && x !in s
    ensures Distinct([x] + s)
  {
    var t := [x] + s;
    forall i, j | 0 <= i < j < |t| ensures t[i] != t[j] {
      assert t[j] == s[j - 1];
      if i > 0 { assert t[i] == s[i - 1]; }
    }
  }

  /** The papers FETCH waits for are distinct, as the selected ones are. */
  lemma {:induction false} MissingIsDistinct(hits: seq<Hit>)
    requires DistinctHits(hits)
    ensures Distinct(Missing(hits)) && |Missing(hits)| <= |hits|
    ensures forall x :: x in Missing(hits) ==> exists i :: 0 <= i < |hits| && hits[i].id == x
  {
    if hits != [] {
      var rest := hits[1..];
      MissingIsDistinct(rest);
      forall x | x in Missing(rest) ensures x != hits[0].id && exists i :: 0 <= i < |hits| && hits[i].id == x {
        var i :| 0 <= i < |rest| && rest[i].id == x;
        assert hits[i + 1].id == x;
      }
      DistinctCons(hits[0].id, Missing(rest));
      assert [] + Missing(rest) == Missing(rest);
    }
  }

  function TermsOf(hits: seq<Hit>, share: real, spare: int, maxWait: real, budgetStop: real, w: World): Terms {
    Terms(Missing(hits), FetchGoal(|hits|, share), spare, |hits|, w.now(0) + maxWait, budgetStop)
  }

  /** step_fetch: it ends as the function of the world says, for every world. */
  method StepFetch(hits: seq<Hit>, share: real, spare: int, maxWait: real, budgetStop: real, world: World)
    returns (plan: FetchPlan, stop: Stop, readings: nat, ghost end: End)
    requires 0.0 <= share <= 1.0
    ensures fresh(plan) && plan.Valid() && plan.candidates == Missing(hits)
    ensures plan.minimum == FetchGoal(|hits|, share) <= |hits|
    ensures end == Fetch(TermsOf(hits, share, spare, maxWait, budgetStop, world), |hits| - |Missing(hits)|, world)
    ensures stop == end.stop && plan.View() == end.wait.plan && readings == end.wait.readings
  {
    GoalIsLeast(|hits|, share, 0);
    var candidates, goal := Missing(hits), FetchGoal(|hits|, share);
    ghost var terms := TermsOf(hits, share, spare, maxWait, budgetStop, world);
    plan := new FetchPlan(candidates, |hits| - |candidates|, goal, spare);
    var started := world.now(0);
    stop, readings, end := AwaitPapers(plan, |hits|, started, started + maxWait, budgetStop, world, terms);
  }

  method AwaitPapers(
      plan: FetchPlan, papers: nat, started: real, mandatoryStop: real, budgetStop: real, world: World,
      ghost terms: FetchLoop.Terms)
    returns (stop: Stop, readings: nat, ghost end: End)
    requires plan.Valid() && started == world.now(0)
    requires terms == Terms(plan.candidates, plan.minimum, plan.spare, papers, mandatoryStop, budgetStop)
    requires plan.View() == Plan(plan.minimum, plan.ready, [], [], 0)
    modifies plan
    ensures plan.Valid() && end == Fetch(terms, old(plan.ready), world)
    ensures stop == end.stop && plan.View() == end.wait.plan && readings == end.wait.readings
  {
    end, readings := Fetch(terms, plan.ready, world), 1;
    if plan.candidates == [] { return NothingToFetch, readings, end; }
    if plan.IsReached() && started >= budgetStop { return TimeLimit, readings, end; }
    var f := new Fetching(plan, world, papers, readings, mandatoryStop, budgetStop);
    stop := f.WaitForPapers();
    readings := f.readings;
  }
}
