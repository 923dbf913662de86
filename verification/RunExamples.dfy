/**
 * Attempts at a run that end in the shapes of the log a reader may not expect.
 */
module RunExamples {
  import opened RunSteps

  lemma {:induction false} Along(states: seq<Run>, run: seq<Step>)
    requires |states| == |run| + 1
    requires forall i :: 0 <= i < |run| ==> Enabled(states[i], run[i]) && Apply(states[i], run[i]) == states[i + 1]
    ensures Valid(states[0], run) && Final(states[0], run) == states[|run|]
    decreases |run|
  {
    if run != [] { Along(states[1..], run[1..]); }
  }

  lemma {:induction false} Joined(s: Run, a: seq<Step>, b: seq<Step>)
    requires Valid(s, a) && Valid(Final(s, a), b)
    ensures Valid(s, a + b) && Final(s, a + b) == Final(Final(s, a), b)
    decreases |a|
  {
    if a == [] {
      assert a + b == b;
    } else {
      Joined(Apply(s, a[0]), a[1..], b);
      assert (a + b)[1..] == a[1..] + b;
    }
  }

  const TO_FETCH := [Start(0), Perform, Perform, Perform]

  /** A first attempt up to the passages, without the chain step. */
  const TO_PASSAGES := TO_FETCH + [SkipChain, Perform]

  function FetchLogged(deep: bool): Run {
    Run(map[1 := Row(Rewrite, false), 2 := Row(FindPapers, false), 3 := Row(Fetch, false)],
        3, {}, Before(Rank(Chain)), NoTask, deep, Unfinished)
  }

  function PassagesLogged(deep: bool): Run {
    Run(map[1 := Row(Rewrite, false), 2 := Row(FindPapers, false), 3 := Row(Fetch, false), 4 := Row(Passages, false)],
        4, {}, Before(Rank(Read)), NoTask, deep, Unfinished)
  }

  lemma {:induction false} ReachesFetch(deep: bool)
    ensures Valid(Fresh(deep), TO_FETCH) && Final(Fresh(deep), TO_FETCH) == FetchLogged(deep)
  {
    var s0 := Fresh(deep);
    var s1 := Apply(s0, Start(0));
    assert s1.rows == map[] && s1.finished == {};
    var s2 := Apply(s1, Perform);
    var s3 := Apply(s2, Perform);
    Along([s0, s1, s2, s3, FetchLogged(deep)], TO_FETCH);
  }

  lemma {:induction false} ReachesPassages(deep: bool)
    ensures Valid(Fresh(deep), TO_PASSAGES) && Final(Fresh(deep), TO_PASSAGES) == PassagesLogged(deep)
  {
    var s := FetchLogged(deep);
    ReachesFetch(deep);
    Along([s, Apply(s, SkipChain), PassagesLogged(deep)], [SkipChain, Perform]);
    Joined(Fresh(deep), TO_FETCH, [SkipChain, Perform]);
  }

  /** A crash, and a new attempt that takes over the steps before the chain step. */
  function Again(last: nat): seq<Step> { [Crash, Start(last), Reuse, Reuse, Reuse] }

  function Resumed(s: Run): Run {
    s.(finished := Kinds(s.rows), pc := Before(Rank(Chain)))
  }

  lemma {:induction false} Resumes(s: Run)
    requires s.pc.Before? && s.left.NoTask? && s.status.Unfinished? && IsLast(s.rows, s.counter)
    requires {Rewrite, FindPapers, Fetch} <= Kinds(s.rows) && forall n :: n in s.rows ==> Kept(s.rows[n])
    ensures Valid(s, Again(s.counter)) && Final(s, Again(s.counter)) == Resumed(s)
  {
    assert KeptRows(s.rows) == s.rows;
    var s1 := Apply(s, Crash);
    var s2 := Apply(s1, Start(s.counter));
    var s3 := Apply(s2, Reuse);
    var s4 := Apply(s3, Reuse);
    Along([s, s1, s2, s3, s4, Resumed(s)], Again(s.counter));
  }

  /** The answer was written when the process died, and the saved passages cannot be loaded any more. */
  const PASSAGES_GONE := TO_PASSAGES + [Perform, Perform] + Again(6) +
      [SkipChain, Reuse, FindNothing, LogNothing, Finish]

  function WriteLogged(): Run {
    var s := PassagesLogged(false);
    s.(rows := s.rows[5 := Row(Read, false)][6 := Row(Write, false)], counter := 6, pc := Before(VERIFICATION))
  }

  lemma {:induction false} Writes()
    ensures Valid(PassagesLogged(false), [Perform, Perform])
    ensures Final(PassagesLogged(false), [Perform, Perform]) == WriteLogged()
  {
    var s0 := PassagesLogged(false);
    Along([s0, Apply(s0, Perform), WriteLogged()], [Perform, Perform]);
  }

  lemma {:induction false} FindsNothing(s: Run)
    requires s.pc == Before(Rank(Chain)) && Chain !in s.finished && Passages in s.finished && s.counter == 6
    ensures var run := [SkipChain, Reuse, FindNothing, LogNothing, Finish];
            && Valid(s, run) && Final(s, run).rows == s.rows[7 := Row(Write, true)] && Final(s, run).status.Done?
  {
    var s1 := Apply(s, SkipChain);
    var s2 := Apply(s1, Reuse);
    var s3 := Apply(s2, FindNothing);
    var s4 := Apply(s3, LogNothing);
    Along([s, s1, s2, s3, s4, Apply(s4, Finish)], [SkipChain, Reuse, FindNothing, LogNothing, Finish]);
  }

  lemma {:induction false} ReachesWritten()
    ensures Valid(Fresh(false), TO_PASSAGES + [Perform, Perform])
    ensures Final(Fresh(false), TO_PASSAGES + [Perform, Perform]) == WriteLogged()
  {
    ReachesPassages(false);
    Writes();
    Joined(Fresh(false), TO_PASSAGES, [Perform, Perform]);
  }

  lemma {:induction false} TakesOver(s: Run)
    requires s == WriteLogged()
    ensures Valid(s, Again(6)) && Final(s, Again(6)) == Resumed(s)
    ensures Passages in Resumed(s).finished && Chain !in Resumed(s).finished
  {
    FirstRows(s);
    Resumes(s);
  }

  lemma {:induction false} FirstRows(s: Run)
    requires s == WriteLogged()
    ensures {Rewrite, FindPapers, Fetch, Passages} <= Kinds(s.rows) && Chain !in Kinds(s.rows)
    ensures forall n :: n in s.rows ==> Kept(s.rows[n])
  {
    assert s.rows[1].kind == Rewrite && s.rows[2].kind == FindPapers && s.rows[3].kind == Fetch;
    assert s.rows[4].kind == Passages;
  }

  /** Such a run is done with two write rows: the completed one and an error row. */
  lemma {:induction false} PassagesGone()
    ensures Valid(Fresh(false), PASSAGES_GONE)
    ensures var t := Final(Fresh(false), PASSAGES_GONE);
            && t.status.Done? && 6 in t.rows && 7 in t.rows
            && t.rows[6] == Row(Write, false) && t.rows[7] == Row(Write, true)
  {
    var w := WriteLogged();
    ReachesWritten();
    TakesOver(w);
    Joined(Fresh(false), TO_PASSAGES + [Perform, Perform], Again(6));
    FindsNothing(Resumed(w));
    Joined(Fresh(false), TO_PASSAGES + [Perform, Perform] + Again(6),
        [SkipChain, Reuse, FindNothing, LogNothing, Finish]);
  }

  const CHAIN_LAST := TO_PASSAGES + Again(4) + [Perform]

  lemma {:induction false} ChainIsDue(s: Run)
    requires s == PassagesLogged(true)
    ensures Valid(s, Again(4)) && Final(s, Again(4)) == Resumed(s) && Chain !in Resumed(s).finished
  {
    assert s.rows[1].kind == Rewrite && s.rows[2].kind == FindPapers && s.rows[3].kind == Fetch;
    Resumes(s);
  }

  /** A deep run resumed with time left can log its chain step after its passages: the chain step was skipped before. */
  lemma {:induction false} ChainAfterPassages()
    ensures Valid(Fresh(true), CHAIN_LAST)
    ensures var t := Final(Fresh(true), CHAIN_LAST);
            4 in t.rows && t.rows[4] == Row(Passages, false) && 5 in t.rows && t.rows[5] == Row(Chain, false)
  {
    var p := PassagesLogged(true);
    ReachesPassages(true);
    ChainIsDue(p);
    Joined(Fresh(true), TO_PASSAGES, Again(4));
    Along([Resumed(p), Apply(Resumed(p), Perform)], [Perform]);
    Joined(Fresh(true), TO_PASSAGES + Again(4), [Perform]);
  }

  // ----- a row after the end ---------------------------------------------------------------------------------------

  /** Consensus fails while verification holds a number; the run fails, and verification goes on. */
  const TO_THROW := [BeginChecks, Number(Verify), ThrowIn(Consensus)]

  const TO_FAILED := [NumberFailure, LogFailure, Finish]

  const ROW_BELOW := TO_PASSAGES + [Perform, Perform] + TO_THROW + TO_FAILED

  function Thrown(): Run {
    WriteLogged().(counter := 7, pc := Failing, left := Task(Verify, Numbered(7)))
  }

  lemma {:induction false} Throws()
    ensures Valid(WriteLogged(), TO_THROW) && Final(WriteLogged(), TO_THROW) == Thrown()
  {
    var s0 := WriteLogged();
    var s1 := Apply(s0, BeginChecks);
    var s2 := Apply(s1, Number(Verify));
    Along([s0, s1, s2, Thrown()], TO_THROW);
  }

  lemma {:induction false} FailsMeanwhile(s: Run)
    requires s.pc == Failing && s.counter == 7 && s.left == Task(Verify, Numbered(7))
    ensures Valid(s, TO_FAILED)
    ensures Final(s, TO_FAILED) == s.(rows := s.rows[8 := Row(Write, true)], counter := 8, pc := Off, status := Failed)
  {
    var s1 := Apply(s, NumberFailure);
    var s2 := Apply(s1, LogFailure);
    Along([s, s1, s2, Apply(s2, Finish)], TO_FAILED);
  }

  /** The run has failed, its error row has number 8, and verification then inserts its row with number 7. */
  lemma {:induction false} RowBelowTheError()
    ensures Valid(Fresh(false), ROW_BELOW)
    ensures var s := Final(Fresh(false), ROW_BELOW);
            && s.status.Failed? && 7 !in s.rows && 8 in s.rows && s.rows[8] == Row(Write, true)
            && Enabled(s, LeftInsert) && Apply(s, LeftInsert).rows == s.rows[7 := Row(Verify, false)]
  {
    ReachesWritten();
    Throws();
    Joined(Fresh(false), TO_PASSAGES + [Perform, Perform], TO_THROW);
    FailsMeanwhile(Thrown());
    Joined(Fresh(false), TO_PASSAGES + [Perform, Perform] + TO_THROW, TO_FAILED);
  }
}
