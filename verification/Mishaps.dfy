/**
 * Three ways in which the pipeline drops a work item for longer than one would expect, and when exactly they happen.
 *
 * A parse job announced while the previous job of the same id is still finishing is refused; and a chunk job retried
 * after its paper was marked ready skips the paper, so that nothing resolves its references.
 * Both last until the worker restarts.  A parse job that dies after it deleted the PDF leaves a paper nobody can ever
 * take further.
 */
module Mishaps {
  import opened Protocol
  import opened ProtocolLaws
  import opened WorkItems

  // ----- a refused announcement ------------------------------------------------------------------------------------

  /** The parse job of p goes on: it does not end, and neither does the worker. */
  predicate JobGoesOn(run: seq<Step>, p: Id) {
    forall i :: 0 <= i < |run| ==> GoesOn(run[i], p)
  }

  predicate Finishing(s: Sys, p: Id) { p in s.running.parse && s.running.parse[p] == ParseDone }

  /** The job that is there will see to the paper, or has already. */
  predicate InHand(s: Sys, p: Id) {
    && p in s.jobs.parse && s.worker.Working? && p in s.db.rows
    && match s.db.rows[p].state
       case PdfFetched =>
         if p in s.running.parse && s.running.parse[p].GivingUp? then true else p in s.files.pdf && !Finishing(s, p)
       case st => Done(st) || st == AbstractOnly
  }

  /** The job that is there has nothing more to do but end, and the paper is on disk again. */
  predicate TooLate(s: Sys, p: Id) {
    && p in s.jobs.parse && s.worker.Working? && s.Has(p, PdfFetched) && p in s.files.pdf && Finishing(s, p)
    && s.fetcher != Announcing(p)
  }

  predicate GoesOn(t: Step, p: Id) {
    t != Worker(WorkerDies) && t != Parse(p, FinishParse) && t != Parse(p, ParseJobDies)
  }

  lemma {:induction false} InHandParse(s: Sys, q: Id, x: ParseStep, p: Id)
    requires Good(s, p) && ParseEnabled(s, q, x) && GoesOn(Parse(q, x), p) && InHand(s, p)
    ensures InHand(ParseApply(s, q, x), p)
  {}

  lemma {:induction false} InHandFetch(s: Sys, f: FetchStep, p: Id)
    requires Good(s, p) && FetchEnabled(s, f) && InHand(s, p)
    ensures InHand(FetchApply(s, f), p)
  {}

  lemma {:induction false} InHandStep(s: Sys, t: Step, p: Id)
    requires Good(s, p) && Enabled(s, t) && GoesOn(t, p) && InHand(s, p)
    ensures InHand(Apply(s, t), p)
  {
    match t
    case Fetch(f) => InHandFetch(s, f, p);
    case Parse(q, x) => InHandParse(s, q, x, p);
    case _ =>
  }

  lemma {:induction false} TooLateParse(s: Sys, q: Id, x: ParseStep, p: Id)
    requires Good(s, p) && ParseEnabled(s, q, x) && GoesOn(Parse(q, x), p) && TooLate(s, p)
    ensures TooLate(ParseApply(s, q, x), p)
  {}

  lemma {:induction false} TooLateFetch(s: Sys, f: FetchStep, p: Id)
    requires Good(s, p) && FetchEnabled(s, f) && TooLate(s, p)
    ensures TooLate(FetchApply(s, f), p)
  {}

  lemma {:induction false} TooLateStep(s: Sys, t: Step, p: Id)
    requires Good(s, p) && Enabled(s, t) && GoesOn(t, p) && TooLate(s, p)
    ensures TooLate(Apply(s, t), p)
  {
    match t
    case Fetch(f) => TooLateFetch(s, f, p);
    case Parse(q, x) => TooLateParse(s, q, x, p);
    case _ =>
  }

  lemma {:induction false} HandedStays(s: Sys, run: seq<Step>, p: Id)
    requires Good(s, p) && Valid(s, run) && JobGoesOn(run, p)
    ensures InHand(s, p) ==> InHand(Final(s, run), p)
    ensures TooLate(s, p) ==> TooLate(Final(s, run), p)
    decreases |run|
  {
    if run != [] {
      assert GoesOn(run[0], p);
      if InHand(s, p) { InHandStep(s, run[0], p); }
      if TooLate(s, p) { TooLateStep(s, run[0], p); }
      StepKeeps(s, run[0], p);
      HandedStays(Apply(s, run[0]), run[1..], p);
    }
  }

  /**
   * When the fetcher announces a PDF, the announcement is lost if and only if a job of the same id is running that has
   * nothing left to do but end: whatever happens until that job ends, the end leaves the paper forgotten in this case
   * and in no other.
   */
  lemma {:induction false} AnnouncementLostIff(s: Sys, run: seq<Step>, p: Id)
    requires Good(s, p) && s.worker.Working? && s.fetcher == Announcing(p) && s.Has(p, PdfFetched) && p in s.files.pdf
    requires Valid(Apply(s, Fetch(Announce)), run) && JobGoesOn(run, p)
    requires Enabled(Final(Apply(s, Fetch(Announce)), run), Parse(p, FinishParse))
    ensures Forgotten(ToParse, Apply(Final(Apply(s, Fetch(Announce)), run), Parse(p, FinishParse)), p)
            <==> p in s.running.parse && s.running.parse[p] == ParseDone
  {
    var t := Apply(s, Fetch(Announce));
    StepKeeps(s, Fetch(Announce), p);
    HandedStays(t, run, p);
    assert if Finishing(s, p) then TooLate(t, p) else InHand(t, p);
  }

  // ----- without a worker crash it cannot happen -------------------------------------------------------------------

  predicate JobAndWorkerLive(run: seq<Step>, p: Id) {
    forall i :: 0 <= i < |run| ==> run[i] != Worker(WorkerDies) && run[i] != Parse(p, ParseJobDies)
  }

  /** A fetched paper has its PDF until its job gives up, and only a job for a paper at this stage or beyond exists. */
  predicate Undisturbed(s: Sys, p: Id) {
    p in s.db.rows ==>
      var st := s.db.rows[p].state;
      && (p in s.jobs.parse || s.fetcher == Announcing(p) ==> st == PdfFetched || Done(st) || st == AbstractOnly)
      && (st == PdfFetched ==> p in s.files.pdf || (p in s.running.parse && s.running.parse[p].GivingUp?))
      && (Finishing(s, p) ==> st != PdfFetched)
  }

  lemma {:induction false} UndisturbedParse(s: Sys, q: Id, x: ParseStep, p: Id)
    requires Good(s, p) && ParseEnabled(s, q, x) && Undisturbed(s, p) && Parse(q, x) != Parse(p, ParseJobDies)
    ensures Undisturbed(ParseApply(s, q, x), p)
  {}

  lemma {:induction false} UndisturbedFetch(s: Sys, f: FetchStep, p: Id)
    requires Good(s, p) && FetchEnabled(s, f) && Undisturbed(s, p)
    ensures Undisturbed(FetchApply(s, f), p)
  {}

  lemma {:induction false} UndisturbedChunk(s: Sys, q: Id, y: ChunkStep, p: Id)
    requires Good(s, p) && ChunkEnabled(s, q, y) && Undisturbed(s, p)
    ensures Undisturbed(ChunkApply(s, q, y), p)
  {}

  lemma {:induction false} UndisturbedStep(s: Sys, t: Step, p: Id)
    requires Good(s, p) && Enabled(s, t) && Undisturbed(s, p) && t != Worker(WorkerDies) && t != Parse(p, ParseJobDies)
    ensures Undisturbed(Apply(s, t), p)
  {
    match t
    case Fetch(f) => UndisturbedFetch(s, f, p);
    case Chunk(q, y) => UndisturbedChunk(s, q, y, p);
    case Parse(q, x) => UndisturbedParse(s, q, x, p);
    case _ =>
  }

  lemma {:induction false} UndisturbedStays(s: Sys, run: seq<Step>, p: Id)
    requires Good(s, p) && Valid(s, run) && Undisturbed(s, p) && JobAndWorkerLive(run, p)
    ensures Undisturbed(Final(s, run), p)
    decreases |run|
  {
    if run != [] {
      UndisturbedStep(s, run[0], p);
      StepKeeps(s, run[0], p);
      UndisturbedStays(Apply(s, run[0]), run[1..], p);
    }
  }

  /**
   * As long as neither the worker nor the paper's parse job has died, no announcement is lost: a finishing job never
   * leaves its paper fetched, and a fetched paper has its PDF until its job gives up.
   */
  lemma {:induction false} NoAnnouncementLostWithoutDeaths(run: seq<Step>, p: Id)
    requires Valid(EMPTY, run) && JobAndWorkerLive(run, p)
    ensures var s := Final(EMPTY, run);
            && (Enabled(s, Parse(p, FinishParse)) ==> !Drops(ToParse, s, Parse(p, FinishParse), p))
            && (s.Has(p, PdfFetched) ==> p in s.files.pdf || (p in s.running.parse && s.running.parse[p].GivingUp?))
  {
    UndisturbedStays(EMPTY, run, p);
    ReachableIsGood(run, p);
  }

  // ----- a retried chunk job ---------------------------------------------------------------------------------------

  predicate WorkerLives(run: seq<Step>) { forall i :: 0 <= i < |run| ==> run[i] != Worker(WorkerDies) }

  /** Whatever anybody does before the worker starts again, the references of p are not resolved. */
  ghost predicate NeverResolved(s: Sys, p: Id) {
    forall run :: Valid(s, run) && WorkerLives(run) ==> p in Final(s, run).db.stale
  }

  /**
   * A retry of the chunk job leaves the references unresolved until the worker restarts if and only if the paper was
   * marked ready, its references are not resolved, and no resolve job happens to be there.
   */
  lemma {:induction false} RetryStrandsIff(s: Sys, p: Id)
    requires Good(s, p) && Enabled(s, Chunk(p, RetryChunk))
    ensures NeverResolved(Apply(s, Chunk(p, RetryChunk)), p)
            <==> s.running.chunk[p] == MarkedReady && p in s.db.stale && p !in s.jobs.refs
  {
    var t := Apply(s, Chunk(p, RetryChunk));
    StepKeeps(s, Chunk(p, RetryChunk), p);
    if s.running.chunk[p] == MarkedReady && p in s.db.stale && p !in s.jobs.refs {
      ForgottenAfter(ToResolve, s, Chunk(p, RetryChunk), p);
      StaysUnresolved(t, p);
    } else if p !in s.db.stale {
      assert Valid(t, []) && WorkerLives([]);
    } else {
      ResolvesSoon(t, p);
    }
  }

  lemma {:induction false} StaysUnresolved(s: Sys, p: Id)
    requires Good(s, p) && Forgotten(ToResolve, s, p)
    ensures NeverResolved(s, p)
  {
    forall run | Valid(s, run) && WorkerLives(run) ensures p in Final(s, run).db.stale {
      ForgottenStays(ToResolve, s, run, p);
    }
  }

  lemma {:induction false} ResolvesSoon(s: Sys, p: Id)
    requires Good(s, p) && s.worker.Working? && p in s.jobs.refs && p in s.db.stale
    ensures !NeverResolved(s, p)
  {
    if p in s.running.refs {
      OneStep(s, Refs(p, ResolveRefs));
      assert WorkerLives([Refs(p, ResolveRefs)]);
    } else {
      var t := Apply(s, Refs(p, StartRefs));
      OneStep(s, Refs(p, StartRefs));
      OneStep(t, Refs(p, ResolveRefs));
      ValidAppend(s, [Refs(p, StartRefs)], [Refs(p, ResolveRefs)]);
      assert WorkerLives([Refs(p, StartRefs)] + [Refs(p, ResolveRefs)]);
    }
  }

  lemma {:induction false} OneStep(s: Sys, t: Step)
    requires Enabled(s, t)
    ensures Valid(s, [t]) && Final(s, [t]) == Apply(s, t)
  {
    assert [t][1..] == [];
  }

  // ----- a paper nobody will ever take further ---------------------------------------------------------------------

  /** The paper can still leave the state pdf_fetched. */
  ghost predicate CanMove(s: Sys, p: Id) {
    exists run :: Valid(s, run) && p in Final(s, run).db.rows && !Final(s, run).Has(p, PdfFetched)
  }

  /** The same papers and files, the jobs that were there, and no parse job of p running. */
  predicate Ahead(s: Sys, t: Sys, p: Id) {
    t.db == s.db && t.files == s.files && s.jobs.parse <= t.jobs.parse && p !in t.running.parse
  }

  lemma {:induction false} ThenOne(s: Sys, run: seq<Step>, t: Step)
    requires Valid(s, run) && Enabled(Final(s, run), t)
    ensures Valid(s, run + [t]) && Final(s, run + [t]) == Apply(Final(s, run), t)
  {
    OneStep(Final(s, run), t);
    ValidAppend(s, run, [t]);
  }

  lemma {:induction false} RecoversRows(s: Sys, p: Id) returns (run: seq<Step>)
    requires s.worker.RecoveringRows? && p !in s.running.parse
    ensures Valid(s, run) && Ahead(s, Final(s, run), p) && Final(s, run).worker == RecoveringRows(map[])
    ensures Todo(s, p) && s.worker.rows[p] == PdfFetched && p in s.files.pdf ==> p in Final(s, run).jobs.parse
    decreases |s.worker.rows|
  {
    if s.worker.rows == map[] { return []; }
    var q :| q in s.worker.rows;
    var t := Apply(s, Worker(RecoverRow(q)));
    assert |t.worker.rows| < |s.worker.rows| by { FewerRows(s.worker.rows, q); }
    var rest := RecoversRows(t, p);
    OneStep(s, Worker(RecoverRow(q)));
    ValidAppend(s, [Worker(RecoverRow(q))], rest);
    run := [Worker(RecoverRow(q))] + rest;
  }

  lemma {:induction false} FewerRows(rows: map<Id, State>, q: Id)
    requires q in rows
    ensures |rows - {q}| < |rows|
  {
    assert rows == (rows - {q})[q := rows[q]];
  }

  lemma {:induction false} RecoversRefs(s: Sys, p: Id) returns (run: seq<Step>)
    requires s.worker.RecoveringRefs? && p !in s.running.parse
    ensures Valid(s, run) && Ahead(s, Final(s, run), p) && Final(s, run).worker == RecoveringRefs({})
    decreases |s.worker.ids|
  {
    if s.worker.ids == {} { return []; }
    var q :| q in s.worker.ids;
    var t := Apply(s, Worker(RecoverRefs(q)));
    var rest := RecoversRefs(t, p);
    OneStep(s, Worker(RecoverRefs(q)));
    ValidAppend(s, [Worker(RecoverRefs(q))], rest);
    run := [Worker(RecoverRefs(q))] + rest;
  }

  /** A stopped worker can start; it then has a parse job for p, if p had one or is on disk. */
  lemma {:induction false} Restarts(s: Sys, p: Id) returns (run: seq<Step>)
    requires s.worker.Stopped? && p !in s.running.parse && s.Has(p, PdfFetched)
    requires p in s.jobs.parse || p in s.files.pdf
    ensures Valid(s, run) && Ahead(s, Final(s, run), p) && Final(s, run).worker.Working?
    ensures p in Final(s, run).jobs.parse
  {
    var s1 := Apply(s, Worker(SelectRows));
    var rows := RecoversRows(s1, p);
    var s2 := Final(s1, rows);
    OneStep(s, Worker(SelectRows));
    ValidAppend(s, [Worker(SelectRows)], rows);
    run := [Worker(SelectRows)] + rows;
    ThenOne(s, run, Worker(ReadPending));
    run := run + [Worker(ReadPending)];
    var refs := RecoversRefs(Final(s, run), p);
    ValidAppend(s, run, refs);
    run := run + refs;
    ThenOne(s, run, Worker(StartWorking));
    run := run + [Worker(StartWorking)];
  }

  /** The parse job of p has read the row. */
  lemma {:induction false} JobReads(s: Sys, p: Id)
    requires s.worker.Working? && p in s.jobs.parse && p !in s.running.parse && s.Has(p, PdfFetched)
    ensures var run := [Parse(p, StartParse)] + [Parse(p, ReadParseRow)];
            Valid(s, run) && Final(s, run) == Reading(s, p)
  {
    OneStep(s, Parse(p, StartParse));
    ThenOne(s, [Parse(p, StartParse)], Parse(p, ReadParseRow));
    assert Final(s, [Parse(p, StartParse)] + [Parse(p, ReadParseRow)]).running == Reading(s, p).running;
  }

  function Reading(s: Sys, p: Id): Sys
    requires p in s.db.rows
  {
    s.(running := s.running.(parse := s.running.parse[p := Parsing(s.db.rows[p].fails)]))
  }

  lemma {:induction false} ReadingMoves(s: Sys, p: Id)
    requires s.worker.Working? && p in s.jobs.parse && p in s.running.parse && s.running.parse[p].Parsing?
    requires s.Has(p, PdfFetched)
    ensures CanMove(s, p)
  {
    var step := if p in s.files.pdf then Parse(p, WriteTei) else Parse(p, LookForPdf);
    var last := if p in s.files.pdf then Parse(p, MarkParsed) else Parse(p, MarkMissing);
    OneStep(s, step);
    ThenOne(s, [step], last);
    assert !Final(s, [step] + [last]).Has(p, PdfFetched);
  }

  lemma {:induction false} JobMoves(s: Sys, p: Id)
    requires s.worker.Working? && p in s.jobs.parse && p !in s.running.parse && s.Has(p, PdfFetched)
    ensures CanMove(s, p)
  {
    JobReads(s, p);
    ReadingMoves(Reading(s, p), p);
    MovesLater(s, [Parse(p, StartParse)] + [Parse(p, ReadParseRow)], p);
  }

  lemma {:induction false} MovesLater(s: Sys, run: seq<Step>, p: Id)
    requires Valid(s, run) && CanMove(Final(s, run), p)
    ensures CanMove(s, p)
  {
    var more :| Valid(Final(s, run), more) && p in Final(Final(s, run), more).db.rows
             && !Final(Final(s, run), more).Has(p, PdfFetched);
    ValidAppend(s, run, more);
  }

  /** With a job, or on disk, a fetched paper can be taken further: at the latest after a restart of the worker. */
  lemma {:induction false} RestartMoves(s: Sys, p: Id)
    requires Good(s, p) && s.Has(p, PdfFetched) && (p in s.jobs.parse || p in s.files.pdf)
    ensures CanMove(s, p)
  {
    var run: seq<Step> := [];
    if !s.worker.Stopped? {
      OneStep(s, Worker(WorkerDies));
      run := [Worker(WorkerDies)];
    }
    var t := Final(s, run);
    var up := Restarts(t, p);
    JobMoves(Final(t, up), p);
    MovesLater(t, up, p);
    MovesLater(s, run, p);
  }

  /** A fetched paper can still be taken further if and only if it has its PDF, a parse job, or is being announced. */
  lemma {:induction false} MovesIff(s: Sys, p: Id)
    requires Good(s, p) && s.Has(p, PdfFetched)
    ensures CanMove(s, p) <==> p in s.files.pdf || p in s.jobs.parse || s.fetcher == Announcing(p)
  {
    if Abandoned(s, p) {
      forall run | Valid(s, run) ensures Final(s, run).Has(p, PdfFetched) { AbandonedForGood(s, run, p); }
    } else if p in s.jobs.parse || p in s.files.pdf {
      RestartMoves(s, p);
    } else {
      OneStep(s, Fetch(Announce));
      StepKeeps(s, Fetch(Announce), p);
      RestartMoves(Apply(s, Fetch(Announce)), p);
      MovesLater(s, [Fetch(Announce)], p);
    }
  }
}
