/**
 * How a run ends: its status says what its last attempt did, and a run that stored its answer has every step behind it.
 */
module RunEndings {
  import opened RunSteps

  /** What the last step that decides the end of an attempt says. */
  function LastWord(run: seq<Step>): Status {
    if run == [] then Unfinished
    else match run[|run| - 1]
         case Store => Done
         case LogNothing => Done
         case Cancel => Cancelled
         case LogFailure => Failed
         case _ => LastWord(run[..|run| - 1])
  }

  lemma {:induction false} FinalOneMore(s: Run, run: seq<Step>)
    requires run != [] && Valid(s, run)
    ensures Valid(s, run[..|run| - 1]) && Enabled(Final(s, run[..|run| - 1]), run[|run| - 1])
    ensures Final(s, run) == Apply(Final(s, run[..|run| - 1]), run[|run| - 1])
    decreases |run|
  {
    if |run| > 1 {
      FinalOneMore(Apply(s, run[0]), run[1..]);
      assert run[1..][..|run| - 2] == run[..|run| - 1][1..];
    }
  }

  /** What is about to be written as the status, or is written. */
  ghost predicate Agrees(s: Run, word: Status) {
    && (s.pc.Ending? ==> s.pc.status == word) && (s.pc.NothingFoundLogged? ==> word == Done)
    && (s.pc.FailureLogged? ==> word == Failed) && (!s.pc.Off? ==> s.status.Unfinished?)
    && (!s.status.Unfinished? ==> s.status == word)
  }

  lemma {:induction false} StepAgrees(s: Run, t: Step, run: seq<Step>)
    requires Enabled(s, t) && Agrees(s, LastWord(run))
    ensures Agrees(Apply(s, t), LastWord(run + [t]))
  {
    assert (run + [t])[..|run|] == run;
  }

  /**
   * The status is the last word of the run: done once it has stored its answer or logged that there are no passages.
   */
  lemma {:induction false} StatusIsTheLastWord(deep: bool, run: seq<Step>)
    requires Valid(Fresh(deep), run)
    ensures Agrees(Final(Fresh(deep), run), LastWord(run))
    decreases |run|
  {
    if run != [] {
      var k := |run| - 1;
      FinalOneMore(Fresh(deep), run);
      StatusIsTheLastWord(deep, run[..k]);
      StepAgrees(Final(Fresh(deep), run[..k]), run[k], run[..k]);
      assert run[..k] + [run[k]] == run;
    }
  }

  /** The answer was stored, and nothing has ended the run otherwise since. */
  predicate Stored(run: seq<Step>) {
    run != []
    && match run[|run| - 1]
       case Store => true
       case LogNothing => false
       case Cancel => false
       case LogFailure => false
       case _ => Stored(run[..|run| - 1])
  }

  ghost predicate Complete(s: Run) {
    {Rewrite, FindPapers, Fetch, Passages, Read, Write, Verify} <= Kinds(s.rows) && NoErrors(s.rows)
  }

  /** A stored answer is being ended, has ended the run, or the attempt was cut off before its status was written. */
  ghost predicate KeepsAnswer(s: Run, run: seq<Step>) {
    && (s.pc.Ending? && s.pc.status.Done? ==> Stored(run) && Complete(s))
    && (s.status.Done? && Stored(run) ==> Complete(s))
  }

  lemma {:induction false} StoreIsComplete(s: Run)
    requires Inv(s) && Enabled(s, Store)
    ensures Complete(Apply(s, Store))
  {}

  lemma {:induction false} StepKeepsAnswer(s: Run, t: Step, run: seq<Step>)
    requires Inv(s) && Enabled(s, t) && Agrees(s, LastWord(run)) && KeepsAnswer(s, run)
    requires s.pc.NothingFoundLogged? ==> !Stored(run)
    ensures KeepsAnswer(Apply(s, t), run + [t])
    ensures Apply(s, t).pc.NothingFoundLogged? ==> !Stored(run + [t])
  {
    assert (run + [t])[..|run|] == run;
    if t.Store? { StoreIsComplete(s); }
  }

  lemma {:induction false} AnswerIsKept(deep: bool, run: seq<Step>)
    requires Valid(Fresh(deep), run)
    ensures KeepsAnswer(Final(Fresh(deep), run), run)
    ensures Final(Fresh(deep), run).pc.NothingFoundLogged? ==> !Stored(run)
    decreases |run|
  {
    if run != [] {
      var k := |run| - 1;
      FinalOneMore(Fresh(deep), run);
      AnswerIsKept(deep, run[..k]);
      StatusIsTheLastWord(deep, run[..k]);
      RunKeeps(Fresh(deep), run[..k]);
      StepKeepsAnswer(Final(Fresh(deep), run[..k]), run[k], run[..k]);
      assert run[..k] + [run[k]] == run;
    }
  }

  /**
   * A run that is done and stored its answer has a completed row of every step, the optional ones aside, and no
   * error.
   */
  lemma {:induction false} DoneIsComplete(deep: bool, run: seq<Step>)
    requires Valid(Fresh(deep), run) && Final(Fresh(deep), run).status.Done?
    ensures LastWord(run) == Done
    ensures Stored(run) ==> Complete(Final(Fresh(deep), run))
  {
    AnswerIsKept(deep, run);
    StatusIsTheLastWord(deep, run);
  }
}
