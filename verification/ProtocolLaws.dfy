/**
 * What every interleaving of the pipeline's steps keeps, with crashes anywhere.
 */
module ProtocolLaws {
  import opened Protocol

  // ----- what holds for each paper at every reachable state --------------------------------------------------------

  /** The stores agree with the row. */
  predicate Stored(s: Sys, p: Id)
    requires p in s.db.rows
  {
    var st := s.db.rows[p].state;
    && (st == Parsed ==> p in s.files.tei)
    && (st == Embedded || st == Ready ==> p in s.db.chunks && p in s.db.references)
    && (p in s.db.chunks <==> p in s.db.references)
    && (p in s.db.stale ==> (st == Embedded || (st == Ready && p in s.queues.pending)))
    && (p in s.queues.pending ==> st == Embedded || st == Ready)
    && s.db.rows[p].fails <= MAX_FETCH_FAILURES && (s.db.rows[p].fails == MAX_FETCH_FAILURES ==> st == AbstractOnly)
    && st != Chunked
  }

  predicate FetcherOk(s: Sys, p: Id)
    requires p in s.db.rows
  {
    var row := s.db.rows[p];
    match s.fetcher
    case Downloading(q, fails) => q == p ==> row == Row(QueuedFulltext, fails)
    case FileWritten(q) => q == p ==> row.state == QueuedFulltext && p in s.files.pdf
    case SoftFailed(q) => q == p ==> row.state == Failed || row.state == QueuedFulltext
    case Requeuing(q) => q == p ==> row.state == QueuedFulltext
    case _ => true
  }

  predicate Done(st: State) { st == Parsed || st == Embedded || st == Ready }

  predicate ParseOk(s: Sys, p: Id)
    requires p in s.db.rows
  {
    var row := s.db.rows[p];
    p in s.running.parse ==>
      && p in s.jobs.parse && s.worker.Working?
      && match s.running.parse[p]
         case Parsing(fails) => row == Row(PdfFetched, fails)
         case PdfMissing => row.state == PdfFetched && p !in s.files.pdf
         case GivingUp(fails) => row.state == PdfFetched && p !in s.files.pdf &&
             row.fails + 1 == fails == MAX_PARSE_FAILURES
         case TeiWritten => row.state == PdfFetched && p in s.files.tei
         case MarkedParsed => Done(row.state)
         case _ => true
  }

  predicate ChunkOk(s: Sys, p: Id)
    requires p in s.db.rows
  {
    var st := s.db.rows[p].state;
    && (p in s.jobs.chunk ==> Done(st))
    && (p in s.running.chunk ==>
          && p in s.jobs.chunk && s.worker.Working?
          && match s.running.chunk[p]
             case Chunking => st == Parsed
             case Committed => st == Embedded
             case Finalizing => st == Embedded
             case MarkedPending => st == Embedded && (p in s.db.stale ==> p in s.queues.pending)
             case MarkedReady => st == Ready
             case EdgesBuilt => st == Ready && p !in s.db.stale
             case ChunkDone => st == Ready
             case ChunkStarted => true)
  }

  predicate RefsOk(s: Sys, p: Id)
    requires p in s.db.rows
  {
    && (p in s.jobs.refs ==> s.db.rows[p].state == Embedded || s.db.rows[p].state == Ready)
    && (p in s.running.refs ==>
          p in s.jobs.refs && s.worker.Working? && (s.running.refs[p] != RefsStarted ==> p !in s.db.stale))
  }

  /** What the worker has read during start-up is still true: it is not running jobs yet. */
  predicate RecoveryOk(s: Sys, p: Id)
    requires p in s.db.rows
  {
    match s.worker
    case RecoveringRows(rows) => p in rows ==> rows[p] == s.db.rows[p].state && MidPipeline(rows[p])
    case RecoveringRefs(ids) => p in ids ==> s.db.rows[p].state == Embedded || s.db.rows[p].state == Ready
    case _ => true
  }

  /** The worker has yet to recover the row it found when it started. */
  predicate Todo(s: Sys, p: Id) { s.worker.RecoveringRows? && p in s.worker.rows }

  /** The stores, the rows and what each process remembers of them fit together. */
  predicate Rows(s: Sys, p: Id)
    requires p in s.db.rows
  {
    Stored(s, p) && FetcherOk(s, p) && RecoveryOk(s, p)
  }

  /** So do the running jobs. */
  predicate Jobs(s: Sys, p: Id)
    requires p in s.db.rows
  {
    ParseOk(s, p) && ChunkOk(s, p) && RefsOk(s, p)
  }

  /** Without a row there are at most fetch jobs, which the fetcher will skip. */
  predicate Absent(s: Sys, p: Id) {
    && p !in s.db.chunks && p !in s.db.references && p !in s.db.stale && p !in s.queues.pending
    && p !in s.jobs.parse && p !in s.jobs.chunk && p !in s.jobs.refs
    && p !in s.running.parse && p !in s.running.chunk && p !in s.running.refs
    && (Carries(s.fetcher) && s.fetcher.id == p ==> s.fetcher.Popped?)
    && (s.worker.RecoveringRefs? ==> p !in s.worker.ids) && !Todo(s, p)
  }

  predicate Good(s: Sys, p: Id) {
    if p in s.db.rows then Rows(s, p) && Jobs(s, p) else Absent(s, p)
  }

  // ----- every step keeps it ---------------------------------------------------------------------------------------

  predicate BeforeOutcome(f: FetchStep) {
    f.ReadUrgentQueue? || f.ReadBulkQueue? || f.SelectStuck? || f.PushLost? || f.Pop? || f.SelectRow? || f.Download?
  }

  lemma {:induction false} FetchStartKeeps(s: Sys, f: FetchStep, p: Id)
    requires FetchEnabled(s, f) && BeforeOutcome(f) && Good(s, p)
    ensures Good(FetchApply(s, f), p)
  {}

  predicate IsOutcome(f: FetchStep) {
    f.MarkFetched? || f.Announce? || f.Fail?
  }

  lemma {:induction false} FetchOutcomeKeeps(s: Sys, f: FetchStep, p: Id)
    requires FetchEnabled(s, f) && IsOutcome(f) && Good(s, p)
    ensures Good(FetchApply(s, f), p)
  {}

  lemma {:induction false} FetchRestKeeps(s: Sys, f: FetchStep, p: Id)
    requires FetchEnabled(s, f) && !BeforeOutcome(f) && !IsOutcome(f) && Good(s, p)
    ensures Good(FetchApply(s, f), p)
  {}

  predicate PassesRow(c: ClientStep) {
    c.Discover? || c.MoveOn?
  }

  lemma {:induction false} ClientRowKeeps(s: Sys, c: ClientStep, p: Id)
    requires ClientEnabled(s, c) && PassesRow(c) && Good(s, p)
    ensures Good(ClientApply(s, c), p)
  {}

  lemma {:induction false} ClientQueueKeeps(s: Sys, c: ClientStep, p: Id)
    requires ClientEnabled(s, c) && !PassesRow(c) && !c.MarkForFetch? && Good(s, p)
    ensures Good(ClientApply(s, c), p)
  {}

  lemma {:induction false} ClientMarkKeeps(s: Sys, c: ClientStep, p: Id)
    requires ClientEnabled(s, c) && c.MarkForFetch? && Good(s, p)
    ensures Good(ClientApply(s, c), p)
  {}

  lemma {:induction false} WorkerKeeps(s: Sys, w: WorkerStep, p: Id)
    requires WorkerEnabled(s, w) && Good(s, p)
    ensures Good(WorkerApply(s, w), p)
  {}

  predicate BeforeVerdict(x: ParseStep) {
    x.StartParse? || x.ReadParseRow? || x.LookForPdf? || x.ParseFails? || x.MarkMissing?
  }

  lemma {:induction false} ParseStartKeeps(s: Sys, q: Id, x: ParseStep, p: Id)
    requires ParseEnabled(s, q, x) && BeforeVerdict(x) && Good(s, p)
    ensures Good(ParseApply(s, q, x), p)
  {}

  lemma {:induction false} ParseRestKeeps(s: Sys, q: Id, x: ParseStep, p: Id)
    requires ParseEnabled(s, q, x) && !BeforeVerdict(x) && Good(s, p)
    ensures Good(ParseApply(s, q, x), p)
  {}

  predicate BeforeReady(y: ChunkStep) {
    y.StartChunk? || y.ReadChunkRow? || y.CommitChunks? || y.DeletePdf? || y.AddPending?
  }

  lemma {:induction false} ChunkStartKeeps(s: Sys, q: Id, y: ChunkStep, p: Id)
    requires ChunkEnabled(s, q, y) && BeforeReady(y) && Good(s, p)
    ensures Good(ChunkApply(s, q, y), p)
  {}

  lemma {:induction false} ChunkRestKeeps(s: Sys, q: Id, y: ChunkStep, p: Id)
    requires ChunkEnabled(s, q, y) && !BeforeReady(y) && Good(s, p)
    ensures Good(ChunkApply(s, q, y), p)
  {}

  lemma {:induction false} RefsKeeps(s: Sys, q: Id, z: RefsStep, p: Id)
    requires RefsEnabled(s, q, z) && Good(s, p)
    ensures Good(RefsApply(s, q, z), p)
  {}

  lemma {:induction false} StepKeeps(s: Sys, t: Step, p: Id)
    requires Enabled(s, t) && Good(s, p)
    ensures Good(Apply(s, t), p)
  {
    match t
    case Fetch(f) =>
      if BeforeOutcome(f) { FetchStartKeeps(s, f, p); }
      else if IsOutcome(f) { FetchOutcomeKeeps(s, f, p); }
      else { FetchRestKeeps(s, f, p); }
    case Client(c) =>
      if PassesRow(c) { ClientRowKeeps(s, c, p); }
      else if c.MarkForFetch? { ClientMarkKeeps(s, c, p); }
      else { ClientQueueKeeps(s, c, p); }
    case Worker(w) => WorkerKeeps(s, w, p);
    case Parse(q, x) =>
      if BeforeVerdict(x) { ParseStartKeeps(s, q, x, p); } else { ParseRestKeeps(s, q, x, p); }
    case Chunk(q, y) =>
      if BeforeReady(y) { ChunkStartKeeps(s, q, y, p); } else { ChunkRestKeeps(s, q, y, p); }
    case Refs(q, z) => RefsKeeps(s, q, z, p);
  }

  /** Every reachable state is good for every paper. */
  lemma {:induction false} RunKeeps(s: Sys, run: seq<Step>, p: Id)
    requires Valid(s, run) && Good(s, p)
    ensures Good(Final(s, run), p)
    decreases |run|
  {
    if run != [] {
      StepKeeps(s, run[0], p);
      RunKeeps(Apply(s, run[0]), run[1..], p);
    }
  }

  lemma {:induction false} ReachableIsGood(run: seq<Step>, p: Id)
    requires Valid(EMPTY, run)
    ensures Good(Final(EMPTY, run), p)
  {
    RunKeeps(EMPTY, run, p);
  }

  lemma {:induction false} ValidAppend(s: Sys, a: seq<Step>, b: seq<Step>)
    requires Valid(s, a) && Valid(Final(s, a), b)
    ensures Valid(s, a + b) && Final(s, a + b) == Final(Final(s, a), b)
    decreases |a|
  {
    if a == [] {
      assert a + b == b;
    } else {
      ValidAppend(Apply(s, a[0]), a[1..], b);
      assert (a + b)[1..] == a[1..] + b;
    }
  }
}
