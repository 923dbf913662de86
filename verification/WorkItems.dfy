/**
 * Who is to take a paper further.  A paper on its way is forgotten when no job, no process and no client stands for it
 * and the process that re-queues such papers has already looked; only then does it have to wait for a restart.
 *
 * For each stage there is an exact condition for a step to make a paper forgotten, and for a step to bring it back.
 */
module WorkItems {
  import opened Protocol
  import opened ProtocolLaws

  datatype Stage = ToFetch | ToParse | ToChunk | ToResolve

  /** The fetcher has the job of a paper that is queued, or is about to queue it again. */
  predicate FetcherHas(f: FetchPc, p: Id) {
    Carries(f) && !f.Announcing? && f.id == p
  }

  predicate FetchWaits(s: Sys, p: Id) {
    p in s.queues.urgent || p in s.queues.bulk || p in s.queues.held || FetcherHas(s.fetcher, p)
  }

  /** The fetcher's recovery will not queue p (again). */
  predicate Looked(f: FetchPc, p: Id) {
    match f
    case Down => false
    case ReadUrgent(seen) => p in seen
    case ReadBulk(seen) => p in seen
    case FoundLost(lost) => p !in lost
    case _ => true
  }

  /** A parse job that has written the state and not queued the chunk job yet. */
  predicate HandsOn(s: Sys, p: Id) { p in s.running.parse && s.running.parse[p] == MarkedParsed }

  /** A chunk job that has marked its paper ready and resolves its references next. */
  predicate Resolving(s: Sys, p: Id) { p in s.running.chunk && s.running.chunk[p] == MarkedReady }

  /** On its way to the next stage, with nobody to take it there before a restart. */
  predicate Forgotten(g: Stage, s: Sys, p: Id) {
    match g
    case ToFetch => s.Has(p, QueuedFulltext) && Looked(s.fetcher, p) && !FetchWaits(s, p)
    case ToParse =>
      && s.Has(p, PdfFetched) && p in s.files.pdf && !s.worker.Stopped? && !Todo(s, p)
      && p !in s.jobs.parse && s.fetcher != Announcing(p)
    case ToChunk =>
      && (s.Has(p, Parsed) || s.Has(p, Embedded)) && !s.worker.Stopped? && !Todo(s, p)
      && p !in s.jobs.chunk && !HandsOn(s, p)
    case ToResolve =>
      && s.Has(p, Ready) && p in s.db.stale
      && (s.worker.Working? || (s.worker.RecoveringRefs? && p !in s.worker.ids))
      && p !in s.jobs.refs && !Resolving(s, p)
  }

  // ----- exactly which steps drop a paper's work item --------------------------------------------------------------

  /**
   * The fetcher abandons its job on an unexpected error, or a client dies before it pushes; and that was the paper's
   * only fetch job.
   */
  predicate DropsFetch(s: Sys, t: Step, p: Id) {
    && s.Has(p, QueuedFulltext) && p !in s.queues.urgent && p !in s.queues.bulk
    && if t == Fetch(Abort) then FetcherHas(s.fetcher, p) && p !in s.queues.held
       else t == Client(ClientDies(p)) && s.queues.held[p] == 1 && Looked(s.fetcher, p) && !FetcherHas(s.fetcher, p)
  }

  /** The fetcher ends before it announces the PDF, or the parse job ends, while the worker is up and has looked. */
  predicate DropsParse(s: Sys, t: Step, p: Id) {
    && s.Has(p, PdfFetched) && p in s.files.pdf && !s.worker.Stopped? && !Todo(s, p)
    && if t == Fetch(Abort) || t == Fetch(FetcherDies) then s.fetcher == Announcing(p) && p !in s.jobs.parse
       else (t == Parse(p, FinishParse) || t == Parse(p, ParseJobDies)) && s.fetcher != Announcing(p)
  }

  /** The parse job dies before it queues the chunk job, or the chunk job dies. */
  predicate DropsChunk(s: Sys, t: Step, p: Id) {
    && (s.Has(p, Parsed) || s.Has(p, Embedded))
    && if t == Parse(p, ParseJobDies) then HandsOn(s, p) && p !in s.jobs.chunk
       else t == Chunk(p, ChunkJobDies) && !HandsOn(s, p)
  }

  /** The chunk job is retried or dies when the paper is ready and nothing is resolved yet, or the resolve job dies. */
  predicate DropsRefs(s: Sys, t: Step, p: Id) {
    && s.Has(p, Ready) && p in s.db.stale
    && if t == Refs(p, RefsJobDies) then !Resolving(s, p)
       else (t == Chunk(p, RetryChunk) || t == Chunk(p, ChunkJobDies)) && Resolving(s, p) && p !in s.jobs.refs
  }

  predicate Drops(g: Stage, s: Sys, t: Step, p: Id) {
    match g
    case ToFetch => DropsFetch(s, t, p)
    case ToParse => DropsParse(s, t, p)
    case ToChunk => DropsChunk(s, t, p)
    case ToResolve => DropsRefs(s, t, p)
  }

  /** The process that looks for such papers goes down (and so starts again), or a client asks for the paper again. */
  predicate Recalls(g: Stage, t: Step, p: Id) {
    if g.ToFetch? then t == Fetch(FetcherDies) || t == Client(MarkForFetch(p)) else t == Worker(WorkerDies)
  }

  predicate ForgottenNext(g: Stage, s: Sys, t: Step, p: Id) {
    if Forgotten(g, s, p) then !Recalls(g, t, p) else Drops(g, s, t, p)
  }

  lemma {:induction false} QueuedAfterStart(s: Sys, f: FetchStep, p: Id)
    requires Good(s, p) && FetchEnabled(s, f) && BeforeOutcome(f)
    ensures Forgotten(ToFetch, FetchApply(s, f), p) <==> ForgottenNext(ToFetch, s, Fetch(f), p)
  {}

  lemma {:induction false} QueuedAfterOutcome(s: Sys, f: FetchStep, p: Id)
    requires Good(s, p) && FetchEnabled(s, f) && !BeforeOutcome(f)
    ensures Forgotten(ToFetch, FetchApply(s, f), p) <==> ForgottenNext(ToFetch, s, Fetch(f), p)
  {}

  lemma {:induction false} FetchedAfterFetcher(s: Sys, f: FetchStep, p: Id)
    requires Good(s, p) && FetchEnabled(s, f)
    ensures Forgotten(ToParse, FetchApply(s, f), p) <==> ForgottenNext(ToParse, s, Fetch(f), p)
  {}

  lemma {:induction false} OthersAfterFetcher(g: Stage, s: Sys, f: FetchStep, p: Id)
    requires Good(s, p) && FetchEnabled(s, f) && (g.ToChunk? || g.ToResolve?)
    ensures Forgotten(g, FetchApply(s, f), p) <==> ForgottenNext(g, s, Fetch(f), p)
  {}

  lemma {:induction false} QueuedAfterClient(s: Sys, c: ClientStep, p: Id)
    requires Good(s, p) && ClientEnabled(s, c)
    ensures Forgotten(ToFetch, ClientApply(s, c), p) <==> ForgottenNext(ToFetch, s, Client(c), p)
  {}

  lemma {:induction false} OthersAfterClient(g: Stage, s: Sys, c: ClientStep, p: Id)
    requires Good(s, p) && ClientEnabled(s, c) && !g.ToFetch?
    ensures Forgotten(g, ClientApply(s, c), p) <==> ForgottenNext(g, s, Client(c), p)
  {}

  lemma {:induction false} AfterWorker(g: Stage, s: Sys, w: WorkerStep, p: Id)
    requires Good(s, p) && WorkerEnabled(s, w)
    ensures Forgotten(g, WorkerApply(s, w), p) <==> ForgottenNext(g, s, Worker(w), p)
  {}

  lemma {:induction false} EarlyAfterParse(g: Stage, s: Sys, q: Id, x: ParseStep, p: Id)
    requires Good(s, p) && ParseEnabled(s, q, x) && (g.ToFetch? || g.ToParse?)
    ensures Forgotten(g, ParseApply(s, q, x), p) <==> ForgottenNext(g, s, Parse(q, x), p)
  {}

  lemma {:induction false} LateAfterParse(g: Stage, s: Sys, q: Id, x: ParseStep, p: Id)
    requires Good(s, p) && ParseEnabled(s, q, x) && (g.ToChunk? || g.ToResolve?)
    ensures Forgotten(g, ParseApply(s, q, x), p) <==> ForgottenNext(g, s, Parse(q, x), p)
  {}

  lemma {:induction false} EarlyAfterChunk(g: Stage, s: Sys, q: Id, y: ChunkStep, p: Id)
    requires Good(s, p) && ChunkEnabled(s, q, y) && (g.ToFetch? || g.ToParse?)
    ensures Forgotten(g, ChunkApply(s, q, y), p) <==> ForgottenNext(g, s, Chunk(q, y), p)
  {}

  lemma {:induction false} LateAfterChunk(g: Stage, s: Sys, q: Id, y: ChunkStep, p: Id)
    requires Good(s, p) && ChunkEnabled(s, q, y) && (g.ToChunk? || g.ToResolve?)
    ensures Forgotten(g, ChunkApply(s, q, y), p) <==> ForgottenNext(g, s, Chunk(q, y), p)
  {}

  lemma {:induction false} AfterRefs(g: Stage, s: Sys, q: Id, z: RefsStep, p: Id)
    requires Good(s, p) && RefsEnabled(s, q, z)
    ensures Forgotten(g, RefsApply(s, q, z), p) <==> ForgottenNext(g, s, Refs(q, z), p)
  {}

  /**
   * The exact account of forgetting: a paper somebody stands for is forgotten after a step if and only if the step
   * drops its work item, and a forgotten one stays so unless its process goes down or a client asks for it.
   */
  lemma {:induction false} ForgottenAfter(g: Stage, s: Sys, t: Step, p: Id)
    requires Good(s, p) && Enabled(s, t)
    ensures Forgotten(g, Apply(s, t), p) <==> if Forgotten(g, s, p) then !Recalls(g, t, p) else Drops(g, s, t, p)
  {
    match t
    case Fetch(f) =>
      if g.ToParse? { FetchedAfterFetcher(s, f, p); }
      else if !g.ToFetch? { OthersAfterFetcher(g, s, f, p); }
      else if BeforeOutcome(f) { QueuedAfterStart(s, f, p); }
      else { QueuedAfterOutcome(s, f, p); }
    case Client(c) => if g.ToFetch? { QueuedAfterClient(s, c, p); } else { OthersAfterClient(g, s, c, p); }
    case Worker(w) => AfterWorker(g, s, w, p);
    case Parse(q, x) =>
      if g.ToFetch? || g.ToParse? { EarlyAfterParse(g, s, q, x, p); } else { LateAfterParse(g, s, q, x, p); }
    case Chunk(q, y) =>
      if g.ToFetch? || g.ToParse? { EarlyAfterChunk(g, s, q, y, p); } else { LateAfterChunk(g, s, q, y, p); }
    case Refs(q, z) => AfterRefs(g, s, q, z, p);
  }

  // ----- over whole runs -------------------------------------------------------------------------------------------

  /** No step of the run drops p's work item for this stage. */
  predicate Spared(g: Stage, s: Sys, run: seq<Step>, p: Id)
    requires Valid(s, run)
    decreases |run|
  {
    run == [] || (!Drops(g, s, run[0], p) && Spared(g, Apply(s, run[0]), run[1..], p))
  }

  lemma {:induction false} SparedIsKept(g: Stage, s: Sys, run: seq<Step>, p: Id)
    requires Good(s, p) && Valid(s, run) && Spared(g, s, run, p) && !Forgotten(g, s, p)
    ensures !Forgotten(g, Final(s, run), p)
    decreases |run|
  {
    if run != [] {
      ForgottenAfter(g, s, run[0], p);
      StepKeeps(s, run[0], p);
      SparedIsKept(g, Apply(s, run[0]), run[1..], p);
    }
  }

  predicate NeverRecalled(g: Stage, run: seq<Step>, p: Id) {
    forall i :: 0 <= i < |run| ==> !Recalls(g, run[i], p)
  }

  lemma {:induction false} ForgottenStays(g: Stage, s: Sys, run: seq<Step>, p: Id)
    requires Good(s, p) && Valid(s, run) && NeverRecalled(g, run, p) && Forgotten(g, s, p)
    ensures Forgotten(g, Final(s, run), p)
    decreases |run|
  {
    if run != [] {
      assert !Recalls(g, run[0], p);
      ForgottenAfter(g, s, run[0], p);
      StepKeeps(s, run[0], p);
      ForgottenStays(g, Apply(s, run[0]), run[1..], p);
    }
  }

  // ----- beyond any restart ----------------------------------------------------------------------------------------

  /** Fetched, with neither its PDF nor a parse job: no recovery looks for it, and no request is accepted for it. */
  predicate Abandoned(s: Sys, p: Id) {
    s.Has(p, PdfFetched) && p !in s.files.pdf && p !in s.jobs.parse && s.fetcher != Announcing(p)
  }

  /** As for a paper that is still on disk, but whatever the worker does: it would not look for this one. */
  predicate Abandons(s: Sys, t: Step, p: Id) {
    && s.Has(p, PdfFetched) && p !in s.files.pdf
    && if t == Fetch(Abort) || t == Fetch(FetcherDies) then s.fetcher == Announcing(p) && p !in s.jobs.parse
       else (t == Parse(p, FinishParse) || t == Parse(p, ParseJobDies)) && s.fetcher != Announcing(p)
  }

  lemma {:induction false} AbandonedByFetcher(s: Sys, f: FetchStep, p: Id)
    requires Good(s, p) && FetchEnabled(s, f)
    ensures Abandoned(FetchApply(s, f), p) <==> Abandoned(s, p) || Abandons(s, Fetch(f), p)
  {}

  lemma {:induction false} AbandonedByParse(s: Sys, q: Id, x: ParseStep, p: Id)
    requires Good(s, p) && ParseEnabled(s, q, x)
    ensures Abandoned(ParseApply(s, q, x), p) <==> Abandoned(s, p) || Abandons(s, Parse(q, x), p)
  {}

  lemma {:induction false} AbandonedByChunk(s: Sys, q: Id, y: ChunkStep, p: Id)
    requires Good(s, p) && ChunkEnabled(s, q, y)
    ensures Abandoned(ChunkApply(s, q, y), p) <==> Abandoned(s, p)
  {}

  /** Exactly these steps abandon a paper, and an abandoned paper stays so whatever happens. */
  lemma {:induction false} AbandonedAfter(s: Sys, t: Step, p: Id)
    requires Good(s, p) && Enabled(s, t)
    ensures Abandoned(Apply(s, t), p) <==> Abandoned(s, p) || Abandons(s, t, p)
  {
    match t
    case Fetch(f) => AbandonedByFetcher(s, f, p);
    case Parse(q, x) => AbandonedByParse(s, q, x, p);
    case Chunk(q, y) => AbandonedByChunk(s, q, y, p);
    case _ =>
  }

  predicate EverAbandons(s: Sys, run: seq<Step>, p: Id)
    requires Valid(s, run)
    decreases |run|
  {
    run != [] && (Abandons(s, run[0], p) || EverAbandons(Apply(s, run[0]), run[1..], p))
  }

  lemma {:induction false} AbandonedOver(s: Sys, run: seq<Step>, p: Id)
    requires Good(s, p) && Valid(s, run)
    ensures Abandoned(Final(s, run), p) <==> Abandoned(s, p) || EverAbandons(s, run, p)
    decreases |run|
  {
    if run != [] {
      AbandonedAfter(s, run[0], p);
      StepKeeps(s, run[0], p);
      AbandonedOver(Apply(s, run[0]), run[1..], p);
    }
  }

  lemma {:induction false} AbandonedForGood(s: Sys, run: seq<Step>, p: Id)
    requires Good(s, p) && Valid(s, run) && Abandoned(s, p)
    ensures Abandoned(Final(s, run), p)
  {
    AbandonedOver(s, run, p);
  }
}
