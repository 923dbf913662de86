/**
 * Whose word FETCH takes: a paper counts as having full text, or as failed, only on a report that says so, and the
 * first report about a pending paper decides.
 */
module FetchReports {
  import opened Common
  import opened FetchLoop

  // ----- one round of reports --------------------------------------------------------------------------------------

  /** What becomes of a paper by a list of reports: the first one about it decides. */
  function FirstSaid(said: seq<(Id, Result)>, x: Id): Option<Result> {
    if said == [] then None else if said[0].0 == x then Some(said[0].1) else FirstSaid(said[1..], x)
  }

  /** Pending papers, each once, that FETCH has not yet given up. */
  ghost predicate Waiting(p: Plan) {
    Distinct(p.pending) && Distinct(p.failed) && forall x :: x in p.pending ==> x !in p.failed
  }

  /** Paper x after it was said what became of it, if anything; what is neither pending nor failed any more is ready. */
  ghost predicate Follows(p: Plan, q: Plan, x: Id, said: Option<Result>) {
    && q.ready + |q.failed| + |q.pending| == p.ready + |p.failed| + |p.pending|
    && if x !in p.pending || said == None
       then (x in q.pending <==> x in p.pending) && (x in q.failed <==> x in p.failed)
       else x !in q.pending && (x in q.failed <==> said == Some(Unavailable))
  }

  lemma {:induction false} RemovedHas(s: seq<Id>, x: Id, y: Id)
    requires x in s && Distinct(s)
    ensures y in Removed(s, x) <==> y in s && y != x
    ensures Distinct(Removed(s, x)) && |Removed(s, x)| == |s| - 1
  {
    assert s == [s[0]] + s[1..];
    if s[0] != x {
      RemovedHas(s[1..], x, y);
      RemovedHas(s[1..], x, s[0]);
      var r := Removed(s[1..], x);
      forall i, j | 0 <= i < j < |Removed(s, x)| ensures Removed(s, x)[i] != Removed(s, x)[j] {
        assert Removed(s, x)[j] == r[j - 1];
        if i > 0 { assert Removed(s, x)[i] == r[i - 1]; }
      }
    }
  }

  lemma {:induction false} FinishedFollows(p: Plan, x: Id, result: Result, y: Id)
    requires Waiting(p)
    ensures var q := Finished(p, x, result); Waiting(q) && Follows(p, q, y, if y == x then Some(result) else None)
  {
    if x in p.pending {
      forall z ensures z in Removed(p.pending, x) <==> z in p.pending && z != x { RemovedHas(p.pending, x, z); }
      RemovedHas(p.pending, x, x);
    }
  }

  /** The rows of a database check: the first one about a pending paper decides its fate. */
  lemma {:induction false} RowsFollow(p: Plan, rows: seq<(Id, Result)>, k: nat, x: Id)
    requires Waiting(p) && k <= |rows|
    ensures var q := FinishedAll(p, rows, k); Waiting(q) && Follows(p, q, x, FirstSaid(rows[..k], x))
  {
    if k > 0 {
      RowsFollow(p, rows, k - 1, x);
      FinishedFollows(FinishedAll(p, rows, k - 1), rows[k - 1].0, rows[k - 1].1, x);
      SaidMore(rows[..k - 1], rows[k - 1], x);
      assert rows[..k] == rows[..k - 1] + [rows[k - 1]];
    }
  }

  lemma {:induction false} SaidMore(said: seq<(Id, Result)>, last: (Id, Result), x: Id)
    ensures FirstSaid(said + [last], x)
         == if FirstSaid(said, x).Some? then FirstSaid(said, x) else if last.0 == x then Some(last.1) else None
  {
    if said == [] {
      assert (said + [last])[1..] == [];
    } else {
      SaidMore(said[1..], last, x);
      assert (said + [last])[1..] == said[1..] + [last];
    }
  }

  /** What one turn says: its message, if any, and then its rows. */
  function SaidBy(turn: Turn): seq<(Id, Result)> {
    (match turn.message case Some(m) => [m] case None => []) + turn.rows
  }

  /** A paper that was pending is after a turn what the turn first said of it; a turn settles no other paper. */
  lemma {:induction false} TurnDecides(p: Plan, turn: Turn, x: Id)
    requires Waiting(p)
    ensures var q := Heard(p, turn); Waiting(q) && Follows(p, q, x, FirstSaid(SaidBy(turn), x))
  {
    if turn.message.Some? {
      var m := turn.message.value;
      FinishedFollows(p, m.0, m.1, x);
      RowsFollow(Finished(p, m.0, m.1), turn.rows, |turn.rows|, x);
      assert SaidBy(turn)[1..] == turn.rows;
    } else {
      RowsFollow(p, turn.rows, |turn.rows|, x);
      assert SaidBy(turn) == turn.rows;
    }
    assert turn.rows[..|turn.rows|] == turn.rows;
  }

  /** The answer to an enqueue request as a report, if it is one. */
  function Reported(answer: Answer): Option<Result> {
    match answer
    case AlreadyReady => Some(Ready)
    case AbstractOnly => Some(Unavailable)
    case NotFound => Some(Unavailable)
    case Queued => None
    case InProgress => None
  }

  /** A request settles exactly the papers of its batch that it reports on. */
  lemma {:induction false} AnswersDecide(w: World, n: nat, p: Plan, batch: seq<Id>, k: nat, x: Id)
    requires Waiting(p) && k <= |batch|
    ensures var q := SettledAll(w, n, p, batch, k);
            Waiting(q) && Follows(p, q, x, if x in batch[..k] then Reported(w.answer(n, x)) else None)
  {
    if k > 0 {
      var q, y := SettledAll(w, n, p, batch, k - 1), batch[k - 1];
      AnswersDecide(w, n, p, batch, k - 1, x);
      assert batch[..k] == batch[..k - 1] + [y];
      FinishedFollows(q, y, Ready, x);
      FinishedFollows(q, y, Unavailable, x);
    }
  }

  // ----- over the whole of FETCH -----------------------------------------------------------------------------------

  /** Somebody said this of the paper: the answer to a request, a message, or a row. */
  ghost predicate Told(w: World, x: Id, r: Result) {
    || (exists n: nat :: Reported(w.answer(n, x)) == Some(r))
    || (exists k :: 0 <= k < |w.turns| && (w.turns[k].message == Some((x, r)) || (x, r) in w.turns[k].rows))
  }

  /** Every failed paper was said to be unavailable, every one gained to be ready. */
  ghost predicate Founded(t: Terms, ready: int, w: World, p: Plan) {
    && p.queued <= |t.candidates|
    && (forall x :: x in p.failed ==> Told(w, x, Unavailable))
    && (forall j :: 0 <= j < p.queued ==>
          t.candidates[j] in p.failed || t.candidates[j] in p.pending || Told(w, t.candidates[j], Ready))
    && ((forall x :: !Told(w, x, Ready)) ==> p.ready == ready)
  }

  lemma {:induction false} RemovedKeeps(s: seq<Id>, x: Id, y: Id)
    requires x in s && y in s && y != x
    ensures y in Removed(s, x)
  {
    assert s == [s[0]] + s[1..];
    if s[0] != x && s[0] != y { RemovedKeeps(s[1..], x, y); }
  }

  lemma {:induction false} FinishedFounded(t: Terms, ready: int, w: World, p: Plan, x: Id, r: Result)
    requires Founded(t, ready, w, p) && Told(w, x, r)
    ensures Founded(t, ready, w, Finished(p, x, r))
  {
    if x in p.pending {
      forall y | y in p.pending && y != x ensures y in Removed(p.pending, x) { RemovedKeeps(p.pending, x, y); }
    }
  }

  lemma {:induction false} SettledFounded(
      t: Terms, ready: int, w: World, n: nat, p: Plan, batch: seq<Id>, k: nat)
    requires k <= |batch| && Founded(t, ready, w, p)
    ensures Founded(t, ready, w, SettledAll(w, n, p, batch, k))
  {
    if k > 0 {
      SettledFounded(t, ready, w, n, p, batch, k - 1);
      var q, x := SettledAll(w, n, p, batch, k - 1), batch[k - 1];
      if Reported(w.answer(n, x)).Some? {
        FinishedFounded(t, ready, w, q, x, Reported(w.answer(n, x)).value);
      }
    }
  }

  lemma {:induction false} BatchFounded(t: Terms, ready: int, w: World, p: Plan)
    requires Founded(t, ready, w, p)
    ensures Founded(t, ready, w, WithBatch(t.candidates, t.spare, p))
  {
    var batch, q := Batch(t.candidates, t.spare, p), WithBatch(t.candidates, t.spare, p);
    forall j | p.queued <= j < q.queued ensures t.candidates[j] in q.pending {
      assert batch[j - p.queued] == t.candidates[j];
    }
  }

  lemma {:induction false} RequestedFounded(t: Terms, ready: int, w: World, s: Wait)
    requires Founded(t, ready, w, s.plan)
    ensures Founded(t, ready, w, Requested(t, w, s).plan)
  {
    var batch, p := Batch(t.candidates, t.spare, s.plan), WithBatch(t.candidates, t.spare, s.plan);
    BatchFounded(t, ready, w, s.plan);
    SettledFounded(t, ready, w, s.requests + 1, p, batch, |batch|);
  }

  lemma {:induction false} EnqueuedFounded(t: Terms, ready: int, w: World, s: Wait)
    requires Founded(t, ready, w, s.plan)
    ensures Founded(t, ready, w, Enqueued(t, w, s).plan)
    decreases |t.candidates| - s.plan.queued
  {
    if BatchEnd(t.candidates, t.spare, s.plan) != s.plan.queued {
      RequestedFounded(t, ready, w, s);
      EnqueuedFounded(t, ready, w, Requested(t, w, s));
    }
  }

  lemma {:induction false} AskingFounded(t: Terms, ready: int, w: World, s: Wait)
    requires Founded(t, ready, w, s.plan)
    ensures Founded(t, ready, w, Asking(t, w, s).plan)
  {
    EnqueuedFounded(t, ready, w, Updated(t, w, s.(before := s.plan.ready)));
  }

  lemma {:induction false} RowsFounded(t: Terms, ready: int, w: World, p: Plan, i: nat, k: nat)
    requires i < |w.turns| && k <= |w.turns[i].rows| && Founded(t, ready, w, p)
    ensures Founded(t, ready, w, FinishedAll(p, w.turns[i].rows, k))
  {
    if k > 0 {
      var rows := w.turns[i].rows;
      RowsFounded(t, ready, w, p, i, k - 1);
      assert (rows[k - 1].0, rows[k - 1].1) in w.turns[i].rows;
      FinishedFounded(t, ready, w, FinishedAll(p, rows, k - 1), rows[k - 1].0, rows[k - 1].1);
    }
  }

  lemma {:induction false} TurnFounded(t: Terms, ready: int, w: World, s: Wait, i: nat)
    requires i < |w.turns| && Founded(t, ready, w, s.plan)
    ensures Founded(t, ready, w, AfterTurn(t, w, s, w.turns[i]).plan)
  {
    var turn := w.turns[i];
    var told := if turn.message.Some? then Finished(s.plan, turn.message.value.0, turn.message.value.1) else s.plan;
    if turn.message.Some? {
      assert turn.message == Some((turn.message.value.0, turn.message.value.1));
      FinishedFounded(t, ready, w, s.plan, turn.message.value.0, turn.message.value.1);
    }
    RowsFounded(t, ready, w, told, i, |turn.rows|);
    AskingFounded(t, ready, w, s.(plan := Heard(s.plan, turn)));
  }

  lemma {:induction false} WaitFounded(t: Terms, ready: int, w: World, s: Wait, i: nat)
    requires Founded(t, ready, w, s.plan) && i <= |w.turns|
    ensures Founded(t, ready, w, Waits(t, w, s, i).wait.plan)
    decreases |w.turns| - i
  {
    if GoesOn(t, w, s) && i < |w.turns| {
      TurnFounded(t, ready, w, Tested(t, s), i);
      if !w.turns[i].cancelled { WaitFounded(t, ready, w, NextWait(t, w, s, i), i + 1); }
    }
    WaitUnfolds(t, w, s, i);
  }

  /**
   * However FETCH ends: a paper in `failed` was reported unavailable, and a queued paper that is neither failed nor
   * pending was reported ready.  Nothing counts as fetched if no paper was reported ready, nothing as failed if none
   * was reported unavailable.
   */
  lemma {:induction false} NoFateUntold(t: Terms, ready: int, w: World)
    ensures var p := Fetch(t, ready, w).wait.plan;
            && p.queued <= |t.candidates|
            && (forall x :: x in p.failed ==> Told(w, x, Unavailable))
            && (forall x :: x in t.candidates[..p.queued] && x !in p.failed && x !in p.pending ==> Told(w, x, Ready))
            && ((forall x :: !Told(w, x, Ready)) ==> p.ready == ready)
            && ((forall x :: !Told(w, x, Unavailable)) ==> p.failed == [])
  {
    var s := Start(t, ready);
    AskingFounded(t, ready, w, s);
    WaitFounded(t, ready, w, Asking(t, w, s), 0);
    var p := Fetch(t, ready, w).wait.plan;
    assert Founded(t, ready, w, p);
    if p.failed != [] { assert p.failed[0] in p.failed; }
  }

  // ----- the reason given ------------------------------------------------------------------------------------------

  /** What the plan looks like when FETCH gives this reason of its own. */
  predicate Explains(t: Terms, p: Plan, stop: Stop) {
    var none := |p.pending| == 0 && p.queued >= |t.candidates|;
    match stop
    case AllReady => p.ready >= t.papers
    case NoMore => p.ready < t.papers && none
    case TimeLimit => p.ready < t.papers && !none && p.ready >= t.minimum
    case SafetyStop => p.ready < t.papers && !none && p.ready < t.minimum
    case _ => false
  }

  lemma {:induction false} VerdictExplains(t: Terms, p: Plan, stop: Stop)
    ensures Explains(t, p, stop) <==> stop == Verdict(t, p)
  {}

  /**
   * With papers to fetch and time for it, FETCH ends with the one reason that its plan bears out, unless it was
   * cancelled or the environment ran out of turns.
   */
  lemma {:induction false} ReasonIff(t: Terms, ready: int, w: World, stop: Stop)
    requires t.minimum <= t.papers && |t.candidates| > 0 && !(ready >= t.minimum && w.now(0) >= t.budgetStop)
    ensures var e := Fetch(t, ready, w);
            e.stop == Cancelled || e.stop == StillWaiting || (e.stop == stop <==> Explains(t, e.wait.plan, stop))
  {
    FetchMeans(t, ready, w);
    VerdictExplains(t, Fetch(t, ready, w).wait.plan, stop);
  }

  /** Without papers to fetch nothing is waited for, nor when the minimum is there and the time is up. */
  lemma {:induction false} NotStarted(t: Terms, ready: int, w: World)
    requires |t.candidates| == 0 || (ready >= t.minimum && w.now(0) >= t.budgetStop)
    ensures var e := Fetch(t, ready, w);
            && e.stop == (if |t.candidates| == 0 then NothingToFetch else TimeLimit)
            && e.wait.plan.ready == ready && e.wait.plan.queued == 0 && e.wait.requests == 0
  {}
}
