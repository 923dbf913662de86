/**
 * What the pipeline promises over whole runs: restarts forget no paper, no paper is finished before its data is
 * written, finished papers stay finished, and failures run out.
 */
module ProtocolGuarantees {
  import opened Protocol
  import opened ProtocolLaws
  import opened WorkItems

  /** The state of a paper never runs ahead of the data it stands for. */
  lemma {:induction false} DataIsWrittenFirst(run: seq<Step>, p: Id)
    requires Valid(EMPTY, run) && p in Final(EMPTY, run).db.rows
    ensures var s := Final(EMPTY, run);
            && (s.Has(p, Parsed) ==> p in s.files.tei)
            && (s.Has(p, Embedded) || s.Has(p, Ready) ==> p in s.db.chunks && p in s.db.references)
            && (p in s.db.chunks <==> p in s.db.references)
            && (p in s.db.stale ==> s.Has(p, Embedded) || (s.Has(p, Ready) && p in s.queues.pending))
  {
    ReachableIsGood(run, p);
  }

  // ----- no paper is forgotten -------------------------------------------------------------------------------------

  predicate FetcherServes(f: FetchPc) { f.Idle? || Carries(f) }

  /** The process that recovers the papers of this stage is down, as both are at the very start. */
  predicate RecovererDown(g: Stage, s: Sys) {
    if g.ToFetch? then s.fetcher.Down? else s.worker.Stopped?
  }

  /**
   * Take any history with crashes anywhere, and any moment in it at which the process concerned is down.  From there
   * on a paper is never forgotten, through any further crashes, unless a step drops this very paper's work item; and
   * a fetched paper is beyond any restart exactly if some step of the whole history abandoned it.
   */
  lemma {:induction false} RestartForgetsNothing(g: Stage, before: seq<Step>, run: seq<Step>, p: Id)
    requires Valid(EMPTY, before) && RecovererDown(g, Final(EMPTY, before))
    requires Valid(Final(EMPTY, before), run) && Spared(g, Final(EMPTY, before), run, p)
    ensures Valid(EMPTY, before + run) && Final(EMPTY, before + run) == Final(Final(EMPTY, before), run)
    ensures !Forgotten(g, Final(EMPTY, before + run), p)
    ensures Abandoned(Final(EMPTY, before + run), p) <==> EverAbandons(EMPTY, before + run, p)
  {
    ReachableIsGood(before, p);
    SparedIsKept(g, Final(EMPTY, before), run, p);
    ValidAppend(EMPTY, before, run);
    AbandonedOver(EMPTY, before + run, p);
  }

  /** For the fetcher: once it has recovered, a queued paper has a fetch job or is in somebody's hands. */
  lemma {:induction false} FetcherRestart(before: seq<Step>, run: seq<Step>, p: Id)
    requires Valid(EMPTY, before) && Final(EMPTY, before).fetcher.Down?
    requires Valid(Final(EMPTY, before), run) && Spared(ToFetch, Final(EMPTY, before), run, p)
    ensures var t := Final(Final(EMPTY, before), run);
            FetcherServes(t.fetcher) && t.Has(p, QueuedFulltext) ==>
              p in t.queues.urgent || p in t.queues.bulk || p in t.queues.held || FetcherHas(t.fetcher, p)
  {
    RestartForgetsNothing(ToFetch, before, run, p);
  }

  /** For the worker: once it has recovered, each stage has its job, or somebody who is about to queue it. */
  lemma {:induction false} WorkerRestart(before: seq<Step>, run: seq<Step>, p: Id)
    requires Valid(EMPTY, before) && Final(EMPTY, before).worker.Stopped?
    requires Valid(Final(EMPTY, before), run) && Final(Final(EMPTY, before), run).worker.Working?
    ensures var s, t := Final(EMPTY, before), Final(Final(EMPTY, before), run);
            && (Spared(ToParse, s, run, p) && t.Has(p, PdfFetched) && p in t.files.pdf ==>
                  p in t.jobs.parse || t.fetcher == Announcing(p))
            && (Spared(ToChunk, s, run, p) && (t.Has(p, Parsed) || t.Has(p, Embedded)) ==>
                  p in t.jobs.chunk || HandsOn(t, p))
            && (Spared(ToResolve, s, run, p) && t.Has(p, Ready) && p in t.db.stale ==>
                  p in t.jobs.refs || Resolving(t, p))
  {
    var s := Final(EMPTY, before);
    if Spared(ToParse, s, run, p) { RestartForgetsNothing(ToParse, before, run, p); }
    if Spared(ToChunk, s, run, p) { RestartForgetsNothing(ToChunk, before, run, p); }
    if Spared(ToResolve, s, run, p) { RestartForgetsNothing(ToResolve, before, run, p); }
  }

  /**
   * At rest, with no client, fetcher or running job at the paper: it has the job of its stage.  The two processes may
   * have been down at different moments: `f` ends when the fetcher, `w` when the worker was down last.
   */
  lemma {:induction false} AtRestEveryPaperHasItsJob(
      f: seq<Step>, afterF: seq<Step>, w: seq<Step>, afterW: seq<Step>, p: Id)
    requires Valid(EMPTY, f) && Final(EMPTY, f).fetcher.Down? && Valid(Final(EMPTY, f), afterF)
    requires Valid(EMPTY, w) && Final(EMPTY, w).worker.Stopped? && Valid(Final(EMPTY, w), afterW)
    requires Spared(ToFetch, Final(EMPTY, f), afterF, p)
    requires forall g :: g != ToFetch ==> Spared(g, Final(EMPTY, w), afterW, p)
    requires Final(Final(EMPTY, f), afterF) == Final(Final(EMPTY, w), afterW)
    requires var t := Final(Final(EMPTY, f), afterF);
             t.fetcher.Idle? && t.worker.Working? && p !in t.queues.held && p !in t.running.parse &&
                 p !in t.running.chunk
    ensures var t := Final(Final(EMPTY, f), afterF);
            && (t.Has(p, QueuedFulltext) ==> p in t.queues.urgent || p in t.queues.bulk)
            && (t.Has(p, PdfFetched) && p in t.files.pdf ==> p in t.jobs.parse)
            && (t.Has(p, Parsed) || t.Has(p, Embedded) ==> p in t.jobs.chunk)
            && (t.Has(p, Ready) && p in t.db.stale ==> p in t.jobs.refs)
  {
    FetcherRestart(f, afterF, p);
    assert Spared(ToParse, Final(EMPTY, w), afterW, p) && Spared(ToChunk, Final(EMPTY, w), afterW, p)
        && Spared(ToResolve, Final(EMPTY, w), afterW, p);
    WorkerRestart(w, afterW, p);
  }

  // ----- finished papers stay finished -----------------------------------------------------------------------------

  predicate Finished(st: State) { st == Ready || st == AbstractOnly }

  lemma {:induction false} FinishedStays(s: Sys, run: seq<Step>, p: Id)
    requires Good(s, p) && Valid(s, run) && p in s.db.rows && Finished(s.db.rows[p].state)
    ensures p in Final(s, run).db.rows && Final(s, run).db.rows[p] == s.db.rows[p]
    decreases |run|
  {
    if run != [] {
      StepKeeps(s, run[0], p);
      RowAfter(s, run[0], p);
      FinishedRowStays(s, run[0], p);
      FinishedStays(Apply(s, run[0]), run[1..], p);
    }
  }

  /** The row of p after a step. */
  function NewRow(s: Sys, t: Step, p: Id): Row
    requires Enabled(s, t) && p in s.db.rows
  {
    var row := s.db.rows[p];
    match t
    case Fetch(f) =>
      if !Carries(s.fetcher) || s.fetcher.id != p then row
      else if f.MarkFetched? then Row(PdfFetched, row.fails)
      else if f.MarkQueued? then Row(QueuedFulltext, row.fails)
      else if f.Fail? then
        var fails := s.fetcher.fails + 1;
        Row(if f.permanent || fails >= MAX_FETCH_FAILURES then AbstractOnly else Failed, fails)
      else row
    case Client(c) =>
      if c.id != p then row
      else if c.MarkForFetch? && Enqueueable(row.state) then Row(QueuedFulltext, row.fails)
      else if c.MoveOn? && row.state == Discovered then Row(MetadataDone, row.fails)
      else if c.MoveOn? && row.state == MetadataDone then Row(SignalsDone, row.fails)
      else row
    case Parse(q, x) =>
      if q != p then row
      else if x.MarkMissing? then Row(Failed, row.fails)
      else if x.MarkParsed? then Row(Parsed, row.fails)
      else if x.MarkAbstractOnly? then Row(AbstractOnly, s.running.parse[p].fails)
      else if x.ParseFails? && s.running.parse[p].fails + 1 < MAX_PARSE_FAILURES then
        Row(PdfFetched, s.running.parse[p].fails + 1)
      else row
    case Chunk(q, y) =>
      if q != p then row
      else if y.CommitChunks? then Row(Embedded, row.fails)
      else if y.MarkReady? then Row(Ready, row.fails)
      else row
    case _ => row
  }

  lemma {:induction false} RowAfter(s: Sys, t: Step, p: Id)
    requires Enabled(s, t) && p in s.db.rows
    ensures p in Apply(s, t).db.rows && Apply(s, t).db.rows[p] == NewRow(s, t, p)
  {
    match t
    case Fetch(f) => assert Apply(s, t) == FetchApply(s, f);
    case Client(c) => assert Apply(s, t) == ClientApply(s, c);
    case Worker(w) => assert Apply(s, t) == WorkerApply(s, w);
    case Parse(q, x) => assert Apply(s, t) == ParseApply(s, q, x);
    case Chunk(q, y) => assert Apply(s, t) == ChunkApply(s, q, y);
    case Refs(q, z) => assert Apply(s, t) == RefsApply(s, q, z);
  }

  lemma {:induction false} FinishedRowStays(s: Sys, t: Step, p: Id)
    requires Good(s, p) && Enabled(s, t) && p in s.db.rows && Finished(s.db.rows[p].state)
    ensures NewRow(s, t, p) == s.db.rows[p]
  {}

  /** Ready and abstract_only are final, whatever happens. */
  lemma {:induction false} FinishedIsForever(before: seq<Step>, run: seq<Step>, p: Id)
    requires Valid(EMPTY, before) && Valid(Final(EMPTY, before), run)
    requires p in Final(EMPTY, before).db.rows && Finished(Final(EMPTY, before).db.rows[p].state)
    ensures var t := Final(Final(EMPTY, before), run);
            p in t.db.rows && t.db.rows[p] == Final(EMPTY, before).db.rows[p]
  {
    ReachableIsGood(before, p);
    FinishedStays(Final(EMPTY, before), run, p);
  }

  // ----- one download per enqueue ----------------------------------------------------------------------------------

  predicate Downloads(s: Sys, t: Step, p: Id)
    requires Enabled(s, t)
  {
    t == Fetch(Download) && s.fetcher.id == p
  }

  /** A request that really queues the paper again. */
  predicate Requests(s: Sys, t: Step, p: Id)
    requires Enabled(s, t)
  {
    t == Client(MarkForFetch(p)) && Enqueueable(s.db.rows[p].state)
  }

  predicate NeverDownloads(s: Sys, run: seq<Step>, p: Id)
    requires Valid(s, run)
    decreases |run|
  {
    run == [] || (!Downloads(s, run[0], p) && NeverDownloads(Apply(s, run[0]), run[1..], p))
  }

  predicate NeverRequested(s: Sys, run: seq<Step>, p: Id)
    requires Valid(s, run)
    decreases |run|
  {
    run == [] || (!Requests(s, run[0], p) && NeverRequested(Apply(s, run[0]), run[1..], p))
  }

  /** Not queued, and not about to be queued again by the fetcher itself. */
  predicate OutOfQueue(s: Sys, p: Id) {
    p in s.db.rows && s.db.rows[p].state != QueuedFulltext && s.fetcher != SoftFailed(p)
  }

  /**
   * However many duplicate jobs are in the queues, a fetched paper is not fetched again unless it is requested again.
   */
  lemma {:induction false} NoSecondDownload(s: Sys, run: seq<Step>, p: Id)
    requires Good(s, p) && Valid(s, run) && OutOfQueue(s, p) && NeverRequested(s, run, p)
    ensures NeverDownloads(s, run, p) && OutOfQueue(Final(s, run), p)
    decreases |run|
  {
    if run != [] {
      StepKeeps(s, run[0], p);
      RowAfter(s, run[0], p);
      OutOfQueueRow(s, run[0], p);
      SoftFailedFrom(s, run[0], p);
      NoSecondDownload(Apply(s, run[0]), run[1..], p);
    }
  }

  lemma {:induction false} OutOfQueueRow(s: Sys, t: Step, p: Id)
    requires Good(s, p) && Enabled(s, t) && OutOfQueue(s, p) && !Requests(s, t, p)
    ensures NewRow(s, t, p).state != QueuedFulltext
    ensures Carries(s.fetcher) && s.fetcher.id == p ==> !s.fetcher.Downloading?
  {}

  lemma {:induction false} SoftFailedFrom(s: Sys, t: Step, p: Id)
    requires Enabled(s, t) && s.fetcher != SoftFailed(p)
    requires Carries(s.fetcher) && s.fetcher.id == p ==> !s.fetcher.Downloading?
    ensures Apply(s, t).fetcher != SoftFailed(p) && !Downloads(s, t, p)
  {
    match t
    case Fetch(f) => assert Apply(s, t) == FetchApply(s, f);
    case Client(c) => assert Apply(s, t) == ClientApply(s, c);
    case Worker(w) => assert Apply(s, t) == WorkerApply(s, w);
    case Parse(q, x) => assert Apply(s, t) == ParseApply(s, q, x);
    case Chunk(q, y) => assert Apply(s, t) == ChunkApply(s, q, y);
    case Refs(q, z) => assert Apply(s, t) == RefsApply(s, q, z);
  }

  // ----- failures run out ------------------------------------------------------------------------------------------

  /** A completed attempt that failed. */
  predicate FailsOn(s: Sys, t: Step, p: Id)
    requires Enabled(s, t)
  {
    || (t.Fetch? && t.f.Fail? && s.fetcher.id == p)
    || (t == Parse(p, ParseFails) && s.running.parse[p].fails + 1 < MAX_PARSE_FAILURES)
    || t == Parse(p, MarkAbstractOnly)
  }

  function Failures(s: Sys, run: seq<Step>, p: Id): nat
    requires Valid(s, run)
    decreases |run|
  {
    if run == [] then 0
    else (if FailsOn(s, run[0], p) then 1 else 0) + Failures(Apply(s, run[0]), run[1..], p)
  }

  function Fails(s: Sys, p: Id): nat { if p in s.db.rows then s.db.rows[p].fails else 0 }

  lemma {:induction false} FailStep(s: Sys, t: Step, p: Id)
    requires Good(s, p) && Enabled(s, t) && p in s.db.rows
    ensures NewRow(s, t, p).fails == s.db.rows[p].fails + if FailsOn(s, t, p) then 1 else 0
  {}

  lemma {:induction false} NoRowNoFailure(s: Sys, t: Step, p: Id)
    requires Good(s, p) && Enabled(s, t) && p !in s.db.rows
    ensures Fails(Apply(s, t), p) == 0 && !FailsOn(s, t, p)
  {
    match t
    case Fetch(f) => assert Apply(s, t) == FetchApply(s, f);
    case Client(c) => assert Apply(s, t) == ClientApply(s, c);
    case Worker(w) => assert Apply(s, t) == WorkerApply(s, w);
    case Parse(q, x) => assert Apply(s, t) == ParseApply(s, q, x);
    case Chunk(q, y) => assert Apply(s, t) == ChunkApply(s, q, y);
    case Refs(q, z) => assert Apply(s, t) == RefsApply(s, q, z);
  }

  lemma {:induction false} FailCountCounts(s: Sys, run: seq<Step>, p: Id)
    requires Good(s, p) && Valid(s, run)
    ensures Fails(Final(s, run), p) == Fails(s, p) + Failures(s, run, p)
    decreases |run|
  {
    if run != [] {
      StepKeeps(s, run[0], p);
      if p in s.db.rows {
        FailStep(s, run[0], p);
        RowAfter(s, run[0], p);
      } else {
        NoRowNoFailure(s, run[0], p);
      }
      FailCountCounts(Apply(s, run[0]), run[1..], p);
    }
  }

  /**
   * fail_count counts the failed fetches and parses together, exactly, over any run; there are never more than three,
   * and the third leaves the paper abstract_only.
   */
  lemma {:induction false} SharedBudget(run: seq<Step>, p: Id)
    requires Valid(EMPTY, run) && p in Final(EMPTY, run).db.rows
    ensures var s := Final(EMPTY, run);
            && s.db.rows[p].fails == Failures(EMPTY, run, p) <= MAX_FETCH_FAILURES
            && (Failures(EMPTY, run, p) == MAX_FETCH_FAILURES ==> s.db.rows[p].state == AbstractOnly)
  {
    ReachableIsGood(run, p);
    FailCountCounts(EMPTY, run, p);
  }

  /** A fetch of p that failed for good. */
  predicate PermanentOn(s: Sys, t: Step, p: Id)
    requires Enabled(s, t)
  {
    t == Fetch(Fail(true)) && s.fetcher.id == p
  }

  predicate EverPermanent(s: Sys, run: seq<Step>, p: Id)
    requires Valid(s, run)
    decreases |run|
  {
    run != [] && (PermanentOn(s, run[0], p) || EverPermanent(Apply(s, run[0]), run[1..], p))
  }

  lemma {:induction false} GivenUpRow(s: Sys, t: Step, p: Id)
    requires Good(s, p) && Enabled(s, t) && p in s.db.rows
    ensures PermanentOn(s, t, p) ==> NewRow(s, t, p).state == AbstractOnly
    ensures NewRow(s, t, p).state == AbstractOnly ==>
              s.Has(p, AbstractOnly) || PermanentOn(s, t, p) || NewRow(s, t, p).fails >= 3
  {}

  lemma {:induction false} NoRowNotGivenUp(s: Sys, t: Step, p: Id)
    requires Good(s, p) && Enabled(s, t) && p !in s.db.rows
    ensures !Apply(s, t).Has(p, AbstractOnly) && !PermanentOn(s, t, p)
  {
    match t
    case Fetch(f) => assert Apply(s, t) == FetchApply(s, f);
    case Client(c) => assert Apply(s, t) == ClientApply(s, c);
    case Worker(w) => assert Apply(s, t) == WorkerApply(s, w);
    case Parse(q, x) => assert Apply(s, t) == ParseApply(s, q, x);
    case Chunk(q, y) => assert Apply(s, t) == ChunkApply(s, q, y);
    case Refs(q, z) => assert Apply(s, t) == RefsApply(s, q, z);
  }

  lemma {:induction false} GivenUpStep(s: Sys, t: Step, p: Id)
    requires Good(s, p) && Enabled(s, t)
    ensures PermanentOn(s, t, p) ==> Apply(s, t).Has(p, AbstractOnly)
    ensures Apply(s, t).Has(p, AbstractOnly) ==>
              s.Has(p, AbstractOnly) || PermanentOn(s, t, p) || Fails(Apply(s, t), p) >= 3
  {
    if p in s.db.rows {
      RowAfter(s, t, p);
      GivenUpRow(s, t, p);
    } else {
      NoRowNotGivenUp(s, t, p);
    }
  }

  lemma {:induction false} GivenUpFrom(s: Sys, run: seq<Step>, p: Id)
    requires Good(s, p) && Valid(s, run)
    ensures EverPermanent(s, run, p) ==> Final(s, run).Has(p, AbstractOnly)
    ensures Final(s, run).Has(p, AbstractOnly) ==>
              s.Has(p, AbstractOnly) || EverPermanent(s, run, p) || Fails(Final(s, run), p) >= 3
    decreases |run|
  {
    if run != [] {
      var next := Apply(s, run[0]);
      StepKeeps(s, run[0], p);
      GivenUpStep(s, run[0], p);
      GivenUpFrom(next, run[1..], p);
      FailCountCounts(next, run[1..], p);
      if next.Has(p, AbstractOnly) { FinishedStays(next, run[1..], p); }
    }
  }

  /** A paper is given up exactly when three attempts on it have failed, or one fetch has failed for good. */
  lemma {:induction false} GivenUpIff(run: seq<Step>, p: Id)
    requires Valid(EMPTY, run)
    ensures Final(EMPTY, run).Has(p, AbstractOnly) <==> Failures(EMPTY, run, p) == 3 || EverPermanent(EMPTY, run, p)
  {
    ReachableIsGood(run, p);
    GivenUpFrom(EMPTY, run, p);
    FailCountCounts(EMPTY, run, p);
    if p in Final(EMPTY, run).db.rows { SharedBudget(run, p); }
  }

  function StagesLeft(st: State): nat {
    match st
    case QueuedFulltext => 4
    case PdfFetched => 3
    case Parsed => 2
    case Embedded => 1
    case _ => 0
  }

  /** Attempts left, then stages left. */
  predicate Below(a: Row, b: Row) {
    a.fails > b.fails || (a.fails == b.fails && StagesLeft(a.state) < StagesLeft(b.state))
  }

  predicate CompletesOn(s: Sys, t: Step, p: Id)
    requires Enabled(s, t)
  {
    || (t.Fetch? && (t.f.Fail? || t.f.MarkFetched?) && s.fetcher.id == p)
    || (t == Parse(p, ParseFails) && s.running.parse[p].fails + 1 < MAX_PARSE_FAILURES)
    || (t.Parse? && t.id == p && (t.x.MarkAbstractOnly? || t.x.MarkMissing? || t.x.MarkParsed?))
    || (t.Chunk? && t.id == p && (t.y.CommitChunks? || t.y.MarkReady?))
  }

  lemma {:induction false} OutcomeRows(s: Sys, t: Step, p: Id)
    requires Good(s, p) && Enabled(s, t) && p in s.db.rows
    ensures CompletesOn(s, t, p) ==> Below(NewRow(s, t, p), s.db.rows[p])
    ensures Below(s.db.rows[p], NewRow(s, t, p)) ==>
              Requests(s, t, p) || (t == Fetch(MarkQueued) && s.fetcher.id == p)
  {}

  /**
   * Every completed fetch, parse or chunk outcome brings the paper closer to its end; only queueing it takes it back.
   */
  lemma {:induction false} OutcomesDecrease(s: Sys, t: Step, p: Id)
    requires Good(s, p) && Enabled(s, t) && p in s.db.rows
    ensures p in Apply(s, t).db.rows
    ensures CompletesOn(s, t, p) ==> Below(Apply(s, t).db.rows[p], s.db.rows[p])
    ensures Below(s.db.rows[p], Apply(s, t).db.rows[p]) ==>
              Requests(s, t, p) || (t == Fetch(MarkQueued) && s.fetcher.id == p)
  {
    OutcomeRows(s, t, p);
    RowAfter(s, t, p);
  }
}
