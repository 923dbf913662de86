/**
 * The full-text pipeline as a crash-prone protocol: API clients enqueue, one fetcher downloads, one worker parses,
 * chunks, marks ready and resolves references.  Every step is one write (or one read that decides a later write) to the
 * papers table, the files or Redis, so that any actor can act, and either process can die, between any two of them.
 */
module Protocol {
  type Id = string

  datatype State =
    | Discovered | MetadataDone | SignalsDone | QueuedFulltext | PdfFetched | Parsed | Chunked | Embedded
    | Ready | AbstractOnly | Failed

  predicate Enqueueable(s: State) {
    s == MetadataDone || s == SignalsDone || s == Failed || s == Discovered
  }

  /** The states the worker takes a paper on from. */
  predicate MidPipeline(s: State) {
    s == PdfFetched || s == Parsed || s == Embedded
  }

  datatype Row = Row(state: State, fails: nat)

  const MAX_FETCH_FAILURES := 3
  const MAX_PARSE_FAILURES := 3

  /** Where the fetcher process is. */
  datatype FetchPc =
    | Down
    | ReadUrgent(seen: set<Id>) | ReadBulk(seen: set<Id>) | FoundLost(lost: set<Id>)  // recover
    | Idle
    | Popped(id: Id)
    | Downloading(id: Id, fails: nat)
    | FileWritten(id: Id)
    | Announcing(id: Id)   // the row says pdf_fetched, the parse job is not queued yet
    | SoftFailed(id: Id)   // the row says failed, it is to be queued again
    | Requeuing(id: Id)    // the row says queued_fulltext, the job is not pushed yet

  datatype WorkerPc =
    | Stopped
    | RecoveringRows(rows: map<Id, State>)
    | RecoveringRefs(ids: set<Id>)
    | Working

  datatype ParsePc =
    | ParseStarted
    | Parsing(fails: nat)
    | PdfMissing
    | GivingUp(fails: nat)  // the PDF is deleted, abstract_only is not written yet
    | TeiWritten
    | MarkedParsed          // the chunk job is not queued yet
    | ParseDone

  datatype ChunkPc =
    | ChunkStarted | Chunking | Committed | Finalizing | MarkedPending | MarkedReady | EdgesBuilt | ChunkDone

  datatype RefsPc = RefsStarted | RefsBuilt | RefsDone

  datatype Database = Database(
    rows: map<Id, Row>,
    chunks: set<Id>, references: set<Id>,
    stale: set<Id>)  // references stored, edges not rebuilt since

  datatype Files = Files(pdf: set<Id>, tei: set<Id>)

  datatype Queues = Queues(
    urgent: seq<Id>, bulk: seq<Id>,
    held: multiset<Id>,  // jobs a client is about to push
    pending: set<Id>)    // refs:pending

  /** The ids of the jobs that exist: queued, or running. */
  datatype Jobs = Jobs(parse: set<Id>, chunk: set<Id>, refs: set<Id>)

  datatype Running = Running(parse: map<Id, ParsePc>, chunk: map<Id, ChunkPc>, refs: map<Id, RefsPc>)

  datatype Sys = Sys(
    db: Database, files: Files, queues: Queues, jobs: Jobs, fetcher: FetchPc, worker: WorkerPc, running: Running)
  {
    predicate Has(p: Id, st: State) { p in db.rows && db.rows[p].state == st }
  }

  /** UPDATE papers SET state = st WHERE arxiv_id = p */
  function Marked(rows: map<Id, Row>, p: Id, st: State): map<Id, Row>
    requires p in rows
  {
    rows[p := Row(st, rows[p].fails)]
  }

  const EMPTY := Sys(Database(map[], {}, {}, {}), Files({}, {}), Queues([], [], multiset{}, {}), Jobs({}, {}, {}), Down,
                     Stopped, Running(map[], map[], map[]))

  // ----- the fetcher -----------------------------------------------------------------------------------------------

  datatype FetchStep =
    | ReadUrgentQueue | ReadBulkQueue | SelectStuck | PushLost(order: seq<Id>)
    | Pop | SelectRow
    | Download | MarkFetched | Announce
    | Fail(permanent: bool) | MarkQueued | PushAgain
    | Abort  // an unexpected error: logged, the job is gone
    | FetcherDies

  predicate FetchEnabled(s: Sys, f: FetchStep) {
    match f
    case ReadUrgentQueue => s.fetcher.Down?
    case ReadBulkQueue => s.fetcher.ReadUrgent?
    case SelectStuck => s.fetcher.ReadBulk?
    case PushLost(order) => s.fetcher.FoundLost? && (set x | x in order) == s.fetcher.lost
    case Pop => s.fetcher.Idle? && (s.queues.urgent != [] || s.queues.bulk != [])
    case SelectRow => s.fetcher.Popped?
    case Download => s.fetcher.Downloading?
    case Fail(_) => s.fetcher.Downloading?
    case MarkFetched => s.fetcher.FileWritten? && s.fetcher.id in s.db.rows
    case Announce => s.fetcher.Announcing?
    case MarkQueued => s.fetcher.SoftFailed? && s.fetcher.id in s.db.rows
    case PushAgain => s.fetcher.Requeuing?
    case Abort => Carries(s.fetcher)
    case FetcherDies => !s.fetcher.Down?
  }

  /** The fetcher is working on one paper. */
  predicate Carries(f: FetchPc) {
    f.Popped? || f.Downloading? || f.FileWritten? || f.Announcing? || f.SoftFailed? || f.Requeuing?
  }

  function FetchApply(s: Sys, f: FetchStep): Sys
    requires FetchEnabled(s, f)
  {
    match f
    case ReadUrgentQueue => s.(fetcher := ReadUrgent(set x | x in s.queues.urgent))
    case ReadBulkQueue => s.(fetcher := ReadBulk(s.fetcher.seen + set x | x in s.queues.bulk))
    case SelectStuck =>
      s.(fetcher := FoundLost((set p | p in s.db.rows && s.db.rows[p].state == QueuedFulltext) - s.fetcher.seen))
    case PushLost(order) => s.(fetcher := Idle, queues := s.queues.(bulk := s.queues.bulk + order))
    case Pop =>
      if s.queues.urgent != [] then s.(fetcher := Popped(s.queues.urgent[0]),
                                       queues := s.queues.(urgent := s.queues.urgent[1..]))
      else s.(fetcher := Popped(s.queues.bulk[0]), queues := s.queues.(bulk := s.queues.bulk[1..]))
    case SelectRow =>
      var p := s.fetcher.id;
      s.(fetcher := if s.Has(p, QueuedFulltext) then Downloading(p, s.db.rows[p].fails) else Idle)
    case Download => s.(fetcher := FileWritten(s.fetcher.id), files := s.files.(pdf := s.files.pdf + {s.fetcher.id}))
    case MarkFetched => s.(fetcher := Announcing(s.fetcher.id),
                           db := s.db.(rows := Marked(s.db.rows, s.fetcher.id, PdfFetched)))
    case Announce => s.(fetcher := Idle, jobs := s.jobs.(parse := s.jobs.parse + {s.fetcher.id}))
    case Fail(permanent) =>
      var p, fails := s.fetcher.id, s.fetcher.fails + 1;
      if permanent || fails >= MAX_FETCH_FAILURES then s.(fetcher := Idle,
                                                          db := s.db.(rows := s.db.rows[p := Row(AbstractOnly, fails)]))
      else s.(fetcher := SoftFailed(p), db := s.db.(rows := s.db.rows[p := Row(Failed, fails)]))
    case MarkQueued => s.(fetcher := Requeuing(s.fetcher.id),
                          db := s.db.(rows := Marked(s.db.rows, s.fetcher.id, QueuedFulltext)))
    case PushAgain => s.(fetcher := Idle, queues := s.queues.(bulk := s.queues.bulk + [s.fetcher.id]))
    case Abort => s.(fetcher := Idle)
    case FetcherDies => s.(fetcher := Down)
  }

  // ----- clients: the API, research runs, the nightly jobs ---------------------------------------------------------

  datatype ClientStep =
    | Discover(id: Id)             // a new row
    | MoveOn(id: Id)               // metadata and signal passes
    | MarkForFetch(id: Id)         // enqueue_fulltext: the UPDATE, on a row selected earlier
    | PushJob(id: Id, urgent: bool)
    | TakeUrgent(id: Id)           // demote_fulltext: LREM; the push to the bulk queue is PushJob(id, false)
    | ClientDies(id: Id)           // between the two writes

  function Without(q: seq<Id>, p: Id): (r: seq<Id>)
    ensures p !in r && forall x :: x != p ==> (x in r <==> x in q)
  {
    if q == [] then [] else if q[0] == p then Without(q[1..], p) else [q[0]] + Without(q[1..], p)
  }

  predicate ClientEnabled(s: Sys, c: ClientStep) {
    match c
    case Discover(p) => p !in s.db.rows
    case MoveOn(p) => p in s.db.rows
    case MarkForFetch(p) => p in s.db.rows
    case PushJob(p, _) => p in s.queues.held
    case TakeUrgent(p) => p in s.queues.urgent
    case ClientDies(p) => p in s.queues.held
  }

  function ClientApply(s: Sys, c: ClientStep): Sys
    requires ClientEnabled(s, c)
  {
    match c
    case Discover(p) => s.(db := s.db.(rows := s.db.rows[p := Row(Discovered, 0)]))
    case MoveOn(p) =>
      if s.db.rows[p].state == Discovered then s.(db := s.db.(rows := Marked(s.db.rows, p, MetadataDone)))
      else if s.db.rows[p].state == MetadataDone then s.(db := s.db.(rows := Marked(s.db.rows, p, SignalsDone)))
      else s
    case MarkForFetch(p) =>
      if Enqueueable(s.db.rows[p].state)
      then s.(queues := s.queues.(held := s.queues.held + multiset{p}),
              db := s.db.(rows := Marked(s.db.rows, p, QueuedFulltext)))
      else s.(queues := s.queues.(held := s.queues.held + multiset{p}))
    case PushJob(p, urgent) =>
      if urgent then s.(queues := s.queues.(held := s.queues.held - multiset{p}, urgent := s.queues.urgent + [p]))
      else s.(queues := s.queues.(held := s.queues.held - multiset{p}, bulk := s.queues.bulk + [p]))
    case TakeUrgent(p) => s.(queues := s.queues.(urgent := Without(s.queues.urgent, p),
                                                 held := s.queues.held + multiset{p}))
    case ClientDies(p) => s.(queues := s.queues.(held := s.queues.held - multiset{p}))
  }

  // ----- the worker: start-up --------------------------------------------------------------------------------------

  datatype WorkerStep =
    | SelectRows | RecoverRow(id: Id) | ReadPending | RecoverRefs(id: Id) | StartWorking
    | WorkerDies  // running jobs vanish; their ids stay, so they are started again

  predicate WorkerEnabled(s: Sys, w: WorkerStep) {
    match w
    case SelectRows => s.worker.Stopped?
    case RecoverRow(p) => s.worker.RecoveringRows? && p in s.worker.rows
    case ReadPending => s.worker.RecoveringRows? && s.worker.rows == map[]
    case RecoverRefs(p) => s.worker.RecoveringRefs? && p in s.worker.ids
    case StartWorking => s.worker.RecoveringRefs? && s.worker.ids == {}
    case WorkerDies => !s.worker.Stopped?
  }

  function WorkerApply(s: Sys, w: WorkerStep): Sys
    requires WorkerEnabled(s, w)
  {
    match w
    case SelectRows =>
      var rows := map p | p in s.db.rows && MidPipeline(s.db.rows[p].state) :: s.db.rows[p].state;
      s.(worker := RecoveringRows(rows))
    case RecoverRow(p) =>
      var rest := RecoveringRows(s.worker.rows - {p});
      if s.worker.rows[p] != PdfFetched then s.(worker := rest, jobs := s.jobs.(chunk := s.jobs.chunk + {p}))
      else if p in s.files.pdf then s.(worker := rest, jobs := s.jobs.(parse := s.jobs.parse + {p}))
      else s.(worker := rest)
    case ReadPending => s.(worker := RecoveringRefs(s.queues.pending))
    case RecoverRefs(p) => s.(worker := RecoveringRefs(s.worker.ids - {p}),
                              jobs := s.jobs.(refs := s.jobs.refs + {p}))
    case StartWorking => s.(worker := Working)
    case WorkerDies => s.(worker := Stopped, running := s.running.(parse := map[], chunk := map[], refs := map[]))
  }

  // ----- parse jobs ------------------------------------------------------------------------------------------------

  datatype ParseStep =
    | StartParse | ReadParseRow | LookForPdf
    | MarkMissing
    | ParseFails                    // fail_count grows; below the limit the job is tried again
    | MarkAbstractOnly
    | WriteTei | MarkParsed | QueueChunk
    | FinishParse
    | ParseJobDies                  // an unexpected error, a timeout or too many tries: the job is gone

  predicate ParseEnabled(s: Sys, p: Id, x: ParseStep) {
    && s.worker.Working? && p in s.jobs.parse
    && if x.StartParse? then p !in s.running.parse
       else if x.ParseJobDies? then true
       else
         p in s.running.parse
         && match x
            case ReadParseRow => s.running.parse[p] == ParseStarted
            case LookForPdf => s.running.parse[p].Parsing?
            case MarkMissing => s.running.parse[p].PdfMissing? && p in s.db.rows
            case ParseFails => s.running.parse[p].Parsing? && p in s.db.rows
            case MarkAbstractOnly => s.running.parse[p].GivingUp? && p in s.db.rows
            case WriteTei => s.running.parse[p].Parsing?
            case MarkParsed => s.running.parse[p].TeiWritten? && p in s.db.rows
            case QueueChunk => s.running.parse[p].MarkedParsed?
            case FinishParse => s.running.parse[p].ParseDone?
            case _ => false
  }

  function ParseApply(s: Sys, p: Id, x: ParseStep): Sys
    requires ParseEnabled(s, p, x)
  {
    match x
    case StartParse => s.(running := s.running.(parse := s.running.parse[p := ParseStarted]))
    case ReadParseRow =>
      s.(running := s.running.(parse := s.running.parse[p := if s.Has(p, PdfFetched) then
        Parsing(s.db.rows[p].fails) else ParseDone]))
    case LookForPdf => if p in s.files.pdf then
      s else s.(running := s.running.(parse := s.running.parse[p := PdfMissing]))
    case MarkMissing => s.(running := s.running.(parse := s.running.parse[p := ParseDone]),
                           db := s.db.(rows := Marked(s.db.rows, p, Failed)))
    case ParseFails =>
      var fails := s.running.parse[p].fails + 1;
      if fails >= MAX_PARSE_FAILURES then s.(files := s.files.(pdf := s.files.pdf - {p}),
                                             running := s.running.(parse := s.running.parse[p := GivingUp(fails)]))
      else s.(running := s.running.(parse := s.running.parse - {p}),
              db := s.db.(rows := s.db.rows[p := Row(PdfFetched, fails)]))
    case MarkAbstractOnly =>
      s.(running := s.running.(parse := s.running.parse[p := ParseDone]),
         db := s.db.(rows := s.db.rows[p := Row(AbstractOnly, s.running.parse[p].fails)]))
    case WriteTei => s.(files := s.files.(tei := s.files.tei + {p}),
                        running := s.running.(parse := s.running.parse[p := TeiWritten]))
    case MarkParsed => s.(running := s.running.(parse := s.running.parse[p := MarkedParsed]),
                          db := s.db.(rows := Marked(s.db.rows, p, Parsed)))
    case QueueChunk => s.(jobs := s.jobs.(chunk := s.jobs.chunk + {p}),
                          running := s.running.(parse := s.running.parse[p := ParseDone]))
    case FinishParse =>
      s.(jobs := s.jobs.(parse := s.jobs.parse - {p}), running := s.running.(parse := s.running.parse - {p}))
    case ParseJobDies =>
      s.(jobs := s.jobs.(parse := s.jobs.parse - {p}), running := s.running.(parse := s.running.parse - {p}))
  }

  // ----- chunk jobs ------------------------------------------------------------------------------------------------

  datatype ChunkStep =
    | StartChunk | ReadChunkRow
    | CommitChunks            // chunks, references and the state in one transaction
    | DeletePdf
    | AddPending | MarkReady
    | BuildEdges | RemovePending
    | FinishChunk
    | RetryChunk              // a transaction lost a deadlock: the job is tried again
    | ChunkJobDies

  predicate ChunkEnabled(s: Sys, p: Id, y: ChunkStep) {
    && s.worker.Working? && p in s.jobs.chunk
    && if y.StartChunk? then p !in s.running.chunk
       else if y.ChunkJobDies? then true
       else
         p in s.running.chunk
         && match y
            case ReadChunkRow => s.running.chunk[p] == ChunkStarted
            case CommitChunks => s.running.chunk[p] == Chunking && p in s.db.rows && p in s.files.tei
            case DeletePdf => s.running.chunk[p] == Committed
            case AddPending => s.running.chunk[p] == Finalizing
            case MarkReady => s.running.chunk[p] == MarkedPending && p in s.db.rows
            case BuildEdges => s.running.chunk[p] == MarkedReady
            case RemovePending => s.running.chunk[p] == EdgesBuilt
            case FinishChunk => s.running.chunk[p] == ChunkDone
            case RetryChunk => s.running.chunk[p] == Chunking || s.running.chunk[p] == MarkedReady
            case _ => false
  }

  function ChunkApply(s: Sys, p: Id, y: ChunkStep): Sys
    requires ChunkEnabled(s, p, y)
  {
    match y
    case StartChunk => s.(running := s.running.(chunk := s.running.chunk[p := ChunkStarted]))
    case ReadChunkRow =>
      s.(running := s.running.(chunk := s.running.chunk[p := if s.Has(p, Parsed) then Chunking
                                     else if s.Has(p, Embedded) then Finalizing else ChunkDone]))
    case CommitChunks =>
      s.(db := s.db.(chunks := s.db.chunks + {p}, references := s.db.references + {p}, stale := s.db.stale + {p},
                     rows := Marked(s.db.rows, p, Embedded)),
         running := s.running.(chunk := s.running.chunk[p := Committed]))
    case DeletePdf => s.(files := s.files.(pdf := s.files.pdf - {p}),
                         running := s.running.(chunk := s.running.chunk[p := Finalizing]))
    case AddPending => s.(queues := s.queues.(pending := s.queues.pending + {p}),
                          running := s.running.(chunk := s.running.chunk[p := MarkedPending]))
    case MarkReady => s.(running := s.running.(chunk := s.running.chunk[p := MarkedReady]),
                         db := s.db.(rows := Marked(s.db.rows, p, Ready)))
    case BuildEdges => s.(db := s.db.(stale := s.db.stale - {p}),
                          running := s.running.(chunk := s.running.chunk[p := EdgesBuilt]))
    case RemovePending => s.(queues := s.queues.(pending := s.queues.pending - {p}),
                             running := s.running.(chunk := s.running.chunk[p := ChunkDone]))
    case FinishChunk => s.(jobs := s.jobs.(chunk := s.jobs.chunk - {p}),
                           running := s.running.(chunk := s.running.chunk - {p}))
    case RetryChunk => s.(running := s.running.(chunk := s.running.chunk - {p}))
    case ChunkJobDies =>
      s.(jobs := s.jobs.(chunk := s.jobs.chunk - {p}), running := s.running.(chunk := s.running.chunk - {p}))
  }

  // ----- resolve jobs ----------------------------------------------------------------------------------------------

  datatype RefsStep = StartRefs | ResolveRefs | DropPending | FinishRefs | RefsJobDies

  predicate RefsEnabled(s: Sys, p: Id, z: RefsStep) {
    && s.worker.Working? && p in s.jobs.refs
    && if z.StartRefs? then p !in s.running.refs
       else if z.RefsJobDies? then true
       else
         p in s.running.refs
         && match z
            case ResolveRefs => s.running.refs[p] == RefsStarted
            case DropPending => s.running.refs[p] == RefsBuilt
            case FinishRefs => s.running.refs[p] == RefsDone
            case _ => false
  }

  function RefsApply(s: Sys, p: Id, z: RefsStep): Sys
    requires RefsEnabled(s, p, z)
  {
    match z
    case StartRefs => s.(running := s.running.(refs := s.running.refs[p := RefsStarted]))
    case ResolveRefs => s.(db := s.db.(stale := s.db.stale - {p}),
                           running := s.running.(refs := s.running.refs[p := RefsBuilt]))
    case DropPending => s.(queues := s.queues.(pending := s.queues.pending - {p}),
                           running := s.running.(refs := s.running.refs[p := RefsDone]))
    case FinishRefs => s.(jobs := s.jobs.(refs := s.jobs.refs - {p}),
                          running := s.running.(refs := s.running.refs - {p}))
    case RefsJobDies =>
      s.(jobs := s.jobs.(refs := s.jobs.refs - {p}), running := s.running.(refs := s.running.refs - {p}))
  }

  // ----- runs ------------------------------------------------------------------------------------------------------

  datatype Step =
    | Fetch(f: FetchStep)
    | Client(c: ClientStep)
    | Worker(w: WorkerStep)
    | Parse(id: Id, x: ParseStep)
    | Chunk(id: Id, y: ChunkStep)
    | Refs(id: Id, z: RefsStep)

  predicate Enabled(s: Sys, t: Step) {
    match t
    case Fetch(f) => FetchEnabled(s, f)
    case Client(c) => ClientEnabled(s, c)
    case Worker(w) => WorkerEnabled(s, w)
    case Parse(p, x) => ParseEnabled(s, p, x)
    case Chunk(p, y) => ChunkEnabled(s, p, y)
    case Refs(p, z) => RefsEnabled(s, p, z)
  }

  function Apply(s: Sys, t: Step): Sys
    requires Enabled(s, t)
  {
    match t
    case Fetch(f) => FetchApply(s, f)
    case Client(c) => ClientApply(s, c)
    case Worker(w) => WorkerApply(s, w)
    case Parse(p, x) => ParseApply(s, p, x)
    case Chunk(p, y) => ChunkApply(s, p, y)
    case Refs(p, z) => RefsApply(s, p, z)
  }

  /** Any interleaving of the actors' steps, from s. */
  predicate Valid(s: Sys, run: seq<Step>)
    decreases |run|
  {
    run == [] || (Enabled(s, run[0]) && Valid(Apply(s, run[0]), run[1..]))
  }

  function Final(s: Sys, run: seq<Step>): Sys
    requires Valid(s, run)
    decreases |run|
  {
    if run == [] then s else Final(Apply(s, run[0]), run[1..])
  }
}
