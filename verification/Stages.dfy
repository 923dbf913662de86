/**
 * The pipeline's operations, written as the source writes them: each changes the stores one write at a time, in order.
 * Every write is a step of the protocol, so what the protocol promises about interleavings and crashes holds between
 * any two of them; the contracts say what an operation has done when nothing interrupts it.
 */
module Stages {
  import opened Common
  import opened Protocol
  import opened ProtocolLaws

  datatype Download = Downloaded | FetchError(permanent: bool)

  const GROBID_ATTEMPTS := 2

  datatype Outcome = Queued | AlreadyReady | InProgress | AbstractOnlyPaper | NotFound

  function OutcomeOf(rows: map<Id, Row>, p: Id): Outcome {
    if p !in rows then NotFound
    else match rows[p].state
         case Ready => AlreadyReady
         case AbstractOnly => AbstractOnlyPaper
         case QueuedFulltext => InProgress
         case PdfFetched => InProgress
         case Parsed => InProgress
         case Chunked => InProgress
         case Embedded => InProgress
         case _ => Queued
  }

  /** What a job does to the rows and stores when it is not interrupted. */
  function FetchedBy(s: Sys, p: Id, download: Download): Sys {
    if !s.Has(p, QueuedFulltext) then s.(fetcher := Idle)
    else
      var fails := s.db.rows[p].fails + 1;
      match download
      case Downloaded =>
        s.(fetcher := Idle, files := s.files.(pdf := s.files.pdf + {p}),
           db := s.db.(rows := s.db.rows[p := Row(PdfFetched, s.db.rows[p].fails)]),
           jobs := s.jobs.(parse := s.jobs.parse + {p}))
      case FetchError(permanent) =>
        if permanent || fails >= MAX_FETCH_FAILURES then
          s.(fetcher := Idle, db := s.db.(rows := s.db.rows[p := Row(AbstractOnly, fails)]))
        else s.(fetcher := Idle, db := s.db.(rows := s.db.rows[p := Row(QueuedFulltext, fails)]),
                queues := s.queues.(bulk := s.queues.bulk + [p]))
  }

  /** parse_stage: the row, the files and the chunk job. */
  function StagedBy(s: Sys, p: Id, readable: bool): Sys {
    if !s.Has(p, PdfFetched) then s
    else
      var fails := s.db.rows[p].fails;
      if p !in s.files.pdf then s.(db := s.db.(rows := s.db.rows[p := Row(Failed, fails)]))
      else if readable then
        s.(jobs := s.jobs.(chunk := s.jobs.chunk + {p}), files := s.files.(tei := s.files.tei + {p}),
           db := s.db.(rows := s.db.rows[p := Row(Parsed, fails)]))
      else if fails + 1 >= MAX_PARSE_FAILURES then
        s.(files := s.files.(pdf := s.files.pdf - {p}),
            db := s.db.(rows := s.db.rows[p := Row(AbstractOnly, fails + 1)]))
      else s.(db := s.db.(rows := s.db.rows[p := Row(PdfFetched, fails + 1)]))
  }

  /** A failure below the limit: the job is to be tried again. */
  predicate Again(s: Sys, p: Id, readable: bool) {
    s.Has(p, PdfFetched) && p in s.files.pdf && !readable && s.db.rows[p].fails + 1 < MAX_PARSE_FAILURES
  }

  function ParsedBy(s: Sys, p: Id, readable: bool): Sys {
    var t := StagedBy(s, p, readable);
    if Again(s, p, readable) then t else t.(jobs := t.jobs.(parse := t.jobs.parse - {p}))
  }

  /** chunk_embed_stage */
  function EmbeddedBy(s: Sys, p: Id): Sys {
    if s.Has(p, Parsed) then
      FinalizedBy(s.(db := s.db.(chunks := s.db.chunks + {p}, references := s.db.references + {p}),
                     files := s.files.(pdf := s.files.pdf - {p})), p)
    else if s.Has(p, Embedded) then FinalizedBy(s, p)
    else s
  }

  function ChunkedBy(s: Sys, p: Id): Sys {
    var t := EmbeddedBy(s, p);
    t.(jobs := t.jobs.(chunk := t.jobs.chunk - {p}))
  }

  function FinalizedBy(s: Sys, p: Id): Sys
    requires p in s.db.rows
  {
    s.(db := s.db.(rows := s.db.rows[p := Row(Ready, s.db.rows[p].fails)], stale := s.db.stale - {p}),
       queues := s.queues.(pending := s.queues.pending - {p}))
  }

  /** Fetched, parsed or chunked, and not ready yet. */
  predicate Underway(s: Sys, p: Id) {
    s.Has(p, PdfFetched) || s.Has(p, Parsed) || s.Has(p, Chunked) || s.Has(p, Embedded)
  }

  class Pipeline {
    var sys: Sys
    ghost var start: Sys
    ghost var run: seq<Step>

    constructor ()
      ensures Traced() && sys == EMPTY && start == EMPTY && run == []
    {
      sys, start, run := EMPTY, EMPTY, [];
    }

    /** All that has happened so far is a run of the protocol. */
    ghost predicate Traced() reads this { Valid(start, run) && Final(start, run) == sys }

    /** One write. */
    method Do(t: Step)
      requires Traced() && Enabled(sys, t)
      modifies this
      ensures Traced() && sys == Apply(old(sys), t) && start == old(start) && old(run) < run
    {
      ValidAppend(start, run, [t]);
      assert [t][1..] == [];
      assert Valid(sys, [t]) && Final(sys, [t]) == Apply(sys, t);
      sys, run := Apply(sys, t), run + [t];
    }

    /** One turn of Fetcher.run: urgent jobs go before bulk ones, each queue from the front. */
    method NextJob() returns (p: Id)
      requires Traced() && sys.fetcher.Idle? && (sys.queues.urgent != [] || sys.queues.bulk != [])
      modifies this
      ensures Traced() && start == old(start) && old(run) < run
      ensures sys == old(sys).(fetcher := Popped(p), queues := sys.queues)
      ensures sys.queues.held == old(sys).queues.held && sys.queues.pending == old(sys).queues.pending
      ensures var was, now := old(sys).queues, sys.queues;
              if was.urgent != [] then [p] + now.urgent == was.urgent && now.bulk == was.bulk
              else [p] + now.bulk == was.bulk && now.urgent == []
    {
      Do(Fetch(Pop));
      p := sys.fetcher.id;
    }

    /** Fetcher.fetch_pdf */
    method FetchPdf(p: Id, download: Download)
      requires Traced() && sys.fetcher == Popped(p)
      modifies this
      ensures Traced() && start == old(start) && old(run) < run
      ensures sys == FetchedBy(old(sys), p, download)
      ensures sys.fetcher.Idle? && sys.queues.urgent == old(sys).queues.urgent
      ensures !old(sys).Has(p, QueuedFulltext) ==>
                sys.db == old(sys).db && sys.queues == old(sys).queues && sys.files == old(sys).files
                && sys.jobs == old(sys).jobs
      ensures old(sys).Has(p, QueuedFulltext) && download.Downloaded? ==>
                && sys.db.rows == old(sys).db.rows[p := Row(PdfFetched, old(sys).db.rows[p].fails)]
                && sys.files.pdf == old(sys).files.pdf + {p} && sys.jobs.parse == old(sys).jobs.parse + {p}
                && sys.queues == old(sys).queues
      ensures old(sys).Has(p, QueuedFulltext) && download == FetchError(false) && old(sys).db.rows[p].fails < 2 ==>
                && sys.db.rows == old(sys).db.rows[p := Row(QueuedFulltext, old(sys).db.rows[p].fails + 1)]
                && sys.queues.bulk == old(sys).queues.bulk + [p] && sys.files == old(sys).files
                && sys.jobs == old(sys).jobs
      ensures old(sys).Has(p, QueuedFulltext) && download.FetchError?
              && (download.permanent || old(sys).db.rows[p].fails >= 2) ==>
                && sys.db.rows == old(sys).db.rows[p := Row(AbstractOnly, old(sys).db.rows[p].fails + 1)]
                && sys.queues == old(sys).queues && sys.files == old(sys).files && sys.jobs == old(sys).jobs
    {
      Do(Fetch(SelectRow));
      if sys.fetcher.Idle? { return; }
      match download
      case FetchError(permanent) =>
        Do(Fetch(Fail(permanent)));
        if sys.fetcher.SoftFailed? {
          Do(Fetch(MarkQueued));
          Do(Fetch(PushAgain));
        }
      case Downloaded =>
        Do(Fetch(Download));
        Do(Fetch(MarkFetched));
        Do(Fetch(Announce));
    }

    /** A readable TEI is written and handed on. */
    method ParseSucceeds(p: Id)
      requires Traced() && ParseEnabled(sys, p, WriteTei) && sys.Has(p, PdfFetched) && p in sys.files.pdf
      modifies this
      ensures Traced() && start == old(start) && old(run) < run
      ensures var t := StagedBy(old(sys), p, true);
              sys == t.(running := t.running.(parse := t.running.parse[p := ParseDone]))
    {
      Do(Parse(p, WriteTei));
      Do(Parse(p, MarkParsed));
      Do(Parse(p, QueueChunk));
    }

    /** The failure is counted, and the third one is the last. */
    method ParseFailed(p: Id)
      requires Traced() && ParseEnabled(sys, p, ParseFails) && sys.Has(p, PdfFetched) && p in sys.files.pdf
      requires sys.running.parse[p] == Parsing(sys.db.rows[p].fails)
      modifies this
      ensures Traced() && start == old(start) && old(run) < run
      ensures var s, t := old(sys), StagedBy(old(sys), p, false);
              sys == t.(running := t.running.(parse := if Again(s, p, false) then t.running.parse - {p}
                                                       else t.running.parse[p := ParseDone]))
    {
      Do(Parse(p, ParseFails));
      if p in sys.running.parse { Do(Parse(p, MarkAbstractOnly)); }
    }

    /** parse_stage */
    method ParseStage(p: Id, grobid: seq<bool>, fallback: bool)
      requires Traced() && ParseEnabled(sys, p, ReadParseRow) && |grobid| == GROBID_ATTEMPTS
      modifies this
      ensures Traced() && start == old(start) && old(run) < run
      ensures var s, readable := old(sys), grobid[0] || grobid[1] || fallback;
              var t := StagedBy(s, p, readable);
              sys == t.(running := t.running.(parse := if Again(s, p, readable) then t.running.parse - {p}
                                                       else t.running.parse[p := ParseDone]))
    {
      Do(Parse(p, ReadParseRow));
      if sys.running.parse[p].ParseDone? { return; }
      Do(Parse(p, LookForPdf));
      if sys.running.parse[p].PdfMissing? {
        Do(Parse(p, MarkMissing));
        return;
      }
      var tei := TryParsers(grobid, fallback);
      if tei { ParseSucceeds(p); } else { ParseFailed(p); }
    }

    method TryParsers(grobid: seq<bool>, fallback: bool) returns (tei: bool)
      requires |grobid| == GROBID_ATTEMPTS
      ensures tei == (grobid[0] || grobid[1] || fallback)
    {
      tei := false;
      var i := 0;
      while i < GROBID_ATTEMPTS && !tei
        invariant 0 <= i <= GROBID_ATTEMPTS && (tei <==> exists k :: 0 <= k < i && grobid[k])
      {
        tei := grobid[i];
        i := i + 1;
      }
      if !tei { tei := fallback; }
    }

    /** parse_paper: GROBID is tried twice, then the fallback parser; `false` is a result that cannot be read. */
    method ParsePaper(p: Id, grobid: seq<bool>, fallback: bool) returns (retry: bool)
      requires Traced() && ParseEnabled(sys, p, StartParse) && |grobid| == GROBID_ATTEMPTS
      modifies this
      ensures Traced() && start == old(start) && old(run) < run
      ensures var readable := grobid[0] || grobid[1] || fallback;
              sys == ParsedBy(old(sys), p, readable) && (retry <==> Again(old(sys), p, readable))
      ensures sys.jobs.parse == if retry then old(sys).jobs.parse else old(sys).jobs.parse - {p}
      ensures !old(sys).Has(p, PdfFetched) ==>
                !retry && sys.db == old(sys).db && sys.files == old(sys).files && sys.jobs.chunk == old(sys).jobs.chunk
      ensures old(sys).Has(p, PdfFetched) && p !in old(sys).files.pdf ==>
                && !retry && sys.db.rows == old(sys).db.rows[p := Row(Failed, old(sys).db.rows[p].fails)]
                && sys.files == old(sys).files && sys.jobs.chunk == old(sys).jobs.chunk
      ensures old(sys).Has(p, PdfFetched) && p in old(sys).files.pdf ==>
                var rows, fails := old(sys).db.rows, old(sys).db.rows[p].fails;
                if grobid[0] || grobid[1] || fallback then
                  && !retry && sys.db.rows == rows[p := Row(Parsed, fails)] && p in sys.files.tei && p in sys.files.pdf
                  && sys.jobs.chunk == old(sys).jobs.chunk + {p}
                else
                  && (retry <==> fails < 2) && sys.jobs.chunk == old(sys).jobs.chunk
                  && sys.db.rows == rows[p := Row(if fails < 2 then PdfFetched else AbstractOnly, fails + 1)]
                  && (p in sys.files.pdf <==> fails < 2) && sys.files.tei == old(sys).files.tei
    {
      Do(Parse(p, StartParse));
      ParseStage(p, grobid, fallback);
      assert sys.running.parse - {p} == old(sys).running.parse;
      retry := p !in sys.running.parse;
      if !retry { Do(Parse(p, FinishParse)); }
    }

    /** finalize: usable as soon as it is ready, references resolved afterwards. */
    method Finalize(p: Id)
      requires Traced() && sys.worker.Working? && p in sys.jobs.chunk && p in sys.db.rows
      requires p in sys.running.chunk && sys.running.chunk[p] == Finalizing
      modifies this
      ensures Traced() && start == old(start) && old(run) < run
      ensures var running := old(sys).running;
              sys == FinalizedBy(old(sys), p).(running := running.(chunk := running.chunk[p := ChunkDone]))
    {
      Do(Chunk(p, AddPending));
      Do(Chunk(p, MarkReady));
      Do(Chunk(p, BuildEdges));
      Do(Chunk(p, RemovePending));
    }

    /** chunk_embed_stage */
    method ChunkStage(p: Id)
      requires Traced() && ChunkEnabled(sys, p, ReadChunkRow) && (sys.Has(p, Parsed) ==> p in sys.files.tei)
      modifies this
      ensures Traced() && start == old(start) && old(run) < run
      ensures var t := EmbeddedBy(old(sys), p);
              sys == t.(running := t.running.(chunk := t.running.chunk[p := ChunkDone]))
    {
      Do(Chunk(p, ReadChunkRow));
      if sys.running.chunk[p] == Chunking { WriteChunks(p); }
      if sys.running.chunk[p] == Finalizing { Finalize(p); }
    }

    /** chunk_paper */
    method ChunkPaper(p: Id)
      requires Traced() && ChunkEnabled(sys, p, StartChunk) && (sys.Has(p, Parsed) ==> p in sys.files.tei)
      modifies this
      ensures Traced() && start == old(start) && old(run) < run
      ensures sys == ChunkedBy(old(sys), p)
      ensures p !in sys.jobs.chunk
      ensures old(sys).Has(p, Parsed) || old(sys).Has(p, Embedded) ==>
                && sys.db.rows == old(sys).db.rows[p := Row(Ready, old(sys).db.rows[p].fails)]
                && p !in sys.db.stale && p !in sys.queues.pending
      ensures old(sys).Has(p, Parsed) ==> p in sys.db.chunks && p in sys.db.references && p !in sys.files.pdf
      ensures !old(sys).Has(p, Parsed) && !old(sys).Has(p, Embedded) ==> sys.db == old(sys).db
    {
      Do(Chunk(p, StartChunk));
      ChunkStage(p);
      assert sys.running.chunk - {p} == old(sys).running.chunk;
      Do(Chunk(p, FinishChunk));
    }

    /** The first half of chunk_embed_stage: one transaction, then the PDF goes. */
    method WriteChunks(p: Id)
      requires Traced() && ChunkEnabled(sys, p, CommitChunks)
      modifies this
      ensures Traced() && start == old(start) && old(run) < run
      ensures var s := old(sys);
              sys == s.(db := s.db.(chunks := s.db.chunks + {p}, references := s.db.references + {p},
                                    stale := s.db.stale + {p}, rows := Marked(s.db.rows, p, Embedded)),
                        files := s.files.(pdf := s.files.pdf - {p}),
                        running := s.running.(chunk := s.running.chunk[p := Finalizing]))
    {
      Do(Chunk(p, CommitChunks));
      Do(Chunk(p, DeletePdf));
    }

    // ----- Fetcher.recover -----------------------------------------------------------------------------------------

    /** The stuck papers of the SELECT, in its order, that no queued job stands for. */
    method FindLost(stuck: seq<Id>, seen: set<Id>) returns (lost: seq<Id>)
      ensures lost == Unseen(stuck, seen)
    {
      lost := [];
      for i := 0 to |stuck|
        invariant lost + Unseen(stuck[i..], seen) == Unseen(stuck, seen)
      {
        if stuck[i] !in seen { lost := lost + [stuck[i]]; }
      }
    }

    method RecoverFetches(stuck: seq<Id>)
      requires Traced() && sys.fetcher.Down?
      requires forall p :: p in stuck <==> sys.Has(p, QueuedFulltext)
      modifies this
      ensures Traced() && start == old(start) && old(run) < run
      ensures var seen := set p | p in old(sys).queues.urgent + old(sys).queues.bulk;
              sys == old(sys).(fetcher := Idle,
                               queues := old(sys).queues.(bulk := old(sys).queues.bulk + Unseen(stuck, seen)))
      ensures forall p :: sys.Has(p, QueuedFulltext) ==> p in sys.queues.urgent || p in sys.queues.bulk
    {
      Do(Fetch(ReadUrgentQueue));
      Do(Fetch(ReadBulkQueue));
      var seen := sys.fetcher.seen;
      assert seen == set p | p in old(sys).queues.urgent + old(sys).queues.bulk;
      var lost := FindLost(stuck, seen);
      UnseenIs(stuck, seen);
      Do(Fetch(SelectStuck));
      Do(Fetch(PushLost(lost)));
    }

    // ----- the worker's recover ------------------------------------------------------------------------------------

    method RecoverOne(p: Id)
      requires Traced() && sys.worker.RecoveringRows? && p in sys.worker.rows
      modifies this
      ensures Traced() && start == old(start) && old(run) < run
      ensures sys == old(sys).(worker := RecoveringRows(old(sys).worker.rows - {p}),
                               jobs := old(sys).jobs.(parse := sys.jobs.parse, chunk := sys.jobs.chunk))
      ensures var rows := old(sys).worker.rows;
              && sys.jobs.parse == old(sys).jobs.parse + (if ToParse(rows, p) && p in sys.files.pdf then {p} else {})
              && sys.jobs.chunk == old(sys).jobs.chunk + (if ToChunk(rows, p) then {p} else {})
    {
      Do(Worker(RecoverRow(p)));
    }

    method RecoverRows(order: seq<Id>)
      requires Traced() && sys.worker.RecoveringRows? && Distinct(order)
      requires forall p :: p in order <==> p in sys.worker.rows
      modifies this
      ensures Traced() && start == old(start) && old(run) <= run
      ensures sys == old(sys).(worker := RecoveringRows(map[]),
                               jobs := old(sys).jobs.(parse := sys.jobs.parse, chunk := sys.jobs.chunk))
      ensures forall p :: p in sys.jobs.parse <==>
                p in old(sys).jobs.parse || (ToParse(old(sys).worker.rows, p) && p in sys.files.pdf)
      ensures forall p :: p in sys.jobs.chunk <==> p in old(sys).jobs.chunk || ToChunk(old(sys).worker.rows, p)
    {
      ghost var rows, done := sys.worker.rows, {};
      for i := 0 to |order|
        invariant Traced() && start == old(start) && old(run) <= run
        invariant sys == old(sys).(worker := RecoveringRows(rows - done),
                                   jobs := old(sys).jobs.(parse := sys.jobs.parse, chunk := sys.jobs.chunk))
        invariant forall p :: p in done <==> p in order[..i]
        invariant forall p :: p in sys.jobs.parse <==>
                    p in old(sys).jobs.parse || (ToParse(rows, p) && p in done && p in sys.files.pdf)
        invariant forall p :: p in sys.jobs.chunk <==> p in old(sys).jobs.chunk || (ToChunk(rows, p) && p in done)
      {
        assert order[..i + 1] == order[..i] + [order[i]];
        assert order[i] in order && order[i] !in order[..i];
        RecoverOne(order[i]);
        assert rows - done - {order[i]} == rows - (done + {order[i]});
        done := done + {order[i]};
      }
      assert order[..|order|] == order;
      assert rows - done == map[];
    }

    method RecoverPending(order: seq<Id>)
      requires Traced() && sys.worker.RecoveringRefs? && Distinct(order)
      requires forall p :: p in order <==> p in sys.worker.ids
      modifies this
      ensures Traced() && start == old(start) && old(run) <= run
      ensures sys == old(sys).(worker := RecoveringRefs({}),
                               jobs := old(sys).jobs.(refs := old(sys).jobs.refs + old(sys).worker.ids))
    {
      for i := 0 to |order|
        invariant Traced() && start == old(start) && old(run) <= run
        invariant sys.worker.RecoveringRefs?
        invariant forall p :: p in sys.worker.ids <==> p in order[i..]
        invariant sys == old(sys).(worker := sys.worker,
                                   jobs := old(sys).jobs.(refs := old(sys).jobs.refs + set p | p in order[..i]))
      {
        var p := order[i];
        assert order[i..] == [p] + order[i + 1..] && order[..i + 1] == order[..i] + [p];
        assert p in order[i..];
        Do(Worker(RecoverRefs(p)));
      }
      assert order[..|order|] == order;
      assert sys.worker.ids == {};
    }

    /** arq_worker.recover: the rows in the order of the SELECT, the set members in any order. */
    method RecoverWorker(rowOrder: seq<Id>, pendingOrder: seq<Id>)
      requires Traced() && sys.worker.Stopped? && Distinct(rowOrder) && Distinct(pendingOrder)
      requires forall p :: p in rowOrder <==> p in sys.db.rows && MidPipeline(sys.db.rows[p].state)
      requires forall p :: p in pendingOrder <==> p in sys.queues.pending
      modifies this
      ensures Traced() && start == old(start) && old(run) < run
      ensures sys == old(sys).(worker := Working, jobs := sys.jobs)
      ensures forall p ::
                && (p in sys.jobs.parse <==> p in old(sys).jobs.parse || (sys.Has(p, PdfFetched) && p in sys.files.pdf))
                && (p in sys.jobs.chunk <==> p in old(sys).jobs.chunk || sys.Has(p, Parsed) || sys.Has(p, Embedded))
                && (p in sys.jobs.refs <==> p in old(sys).jobs.refs || p in sys.queues.pending)
    {
      Do(Worker(SelectRows));
      RecoverRows(rowOrder);
      Do(Worker(ReadPending));
      RecoverPending(pendingOrder);
      Do(Worker(StartWorking));
    }

    // ----- enqueue_fulltext and demote_fulltext --------------------------------------------------------------------

    method Classify(ids: seq<Id>, urgent: bool) returns (outcome: map<Id, Outcome>, queue: seq<Id>)
      ensures Classified(sys.db.rows, ids, outcome) && queue == Picked(sys.db.rows, ids, urgent)
    {
      outcome, queue := map[], [];
      for i := 0 to |ids|
        invariant forall p :: p in outcome <==> p in ids[..i]
        invariant forall p :: p in outcome ==> outcome[p] == OutcomeOf(sys.db.rows, p)
        invariant queue == Picked(sys.db.rows, ids[..i], urgent)
      {
        var p := ids[i];
        assert ids[..i + 1] == ids[..i] + [p] && ids[..i + 1][..i] == ids[..i];
        if p !in outcome {
          outcome := outcome[p := OutcomeOf(sys.db.rows, p)];
          if ToQueue(sys.db.rows, p, urgent) { queue := queue + [p]; }
        }
      }
      assert ids[..|ids|] == ids;
    }

    method MarkAll(queue: seq<Id>)
      requires Traced() && forall p :: p in queue ==> p in sys.db.rows
      modifies this
      ensures Traced() && start == old(start) && old(run) <= run
      ensures sys == old(sys).(db := old(sys).db.(rows := AllMarked(old(sys).db.rows, queue)),
                               queues := old(sys).queues.(held := old(sys).queues.held + multiset(queue)))
    {
      for i := 0 to |queue|
        invariant Traced() && start == old(start) && old(run) <= run
        invariant sys == old(sys).(db := old(sys).db.(rows := AllMarked(old(sys).db.rows, queue[..i])),
                                   queues := old(sys).queues.(held := old(sys).queues.held + multiset(queue[..i])))
      {
        assert queue[..i + 1] == queue[..i] + [queue[i]];
        AllMarkedKeepsKeys(old(sys).db.rows, queue[..i]);
        Do(Client(MarkForFetch(queue[i])));
      }
      assert queue[..|queue|] == queue;
    }

    method PushAll(queue: seq<Id>, urgent: bool)
      requires Traced() && multiset(queue) <= sys.queues.held
      modifies this
      ensures Traced() && start == old(start) && old(run) <= run
      ensures sys == Pushed(old(sys), queue, urgent)
    {
      assert queue[..0] == [];
      for i := 0 to |queue|
        invariant Traced() && start == old(start) && old(run) <= run
        invariant sys == Pushed(old(sys), queue[..i], urgent)
      {
        PushedNext(old(sys), queue, i, urgent);
        Do(Client(PushJob(queue[i], urgent)));
      }
      assert queue[..|queue|] == queue;
    }

    /** enqueue_fulltext */
    method EnqueueFulltext(ids: seq<Id>, urgent: bool) returns (outcome: map<Id, Outcome>, ghost queue: seq<Id>)
      requires Traced()
      modifies this
      ensures Traced() && start == old(start) && old(run) <= run
      ensures Classified(old(sys).db.rows, ids, outcome)
      ensures (forall p :: p in outcome <==> p in ids) && forall p :: p in outcome ==> Answers(old(sys), p, outcome[p])
      ensures sys.db.rows.Keys == old(sys).db.rows.Keys
      ensures forall p :: p in sys.db.rows ==> sys.db.rows[p] == EnqueuedRow(old(sys), outcome, p)
      ensures forall p :: p in queue <==>
                p in outcome && (outcome[p] == Queued || (urgent && old(sys).Has(p, QueuedFulltext)))
      ensures queue == Picked(old(sys).db.rows, ids, urgent)
      ensures sys == old(sys).(db := old(sys).db.(rows := AllMarked(old(sys).db.rows, queue)),
                               queues := old(sys).queues.(urgent := old(sys).queues.urgent + if urgent then
                                 queue else [], bulk := old(sys).queues.bulk + if urgent then [] else queue))
    {
      var toQueue;
      outcome, toQueue := Classify(ids, urgent);
      queue := toQueue;
      Enqueue(ids, urgent, toQueue);
      EnqueueMeans(old(sys), ids, outcome, queue, urgent);
    }

    method Enqueue(ghost ids: seq<Id>, urgent: bool, queue: seq<Id>)
      requires Traced() && queue == Picked(sys.db.rows, ids, urgent)
      modifies this
      ensures Traced() && start == old(start) && old(run) <= run
      ensures sys == old(sys).(db := old(sys).db.(rows := AllMarked(old(sys).db.rows, queue)),
                               queues := old(sys).queues.(urgent := old(sys).queues.urgent + if urgent then
                                 queue else [], bulk := old(sys).queues.bulk + if urgent then [] else queue))
    {
      PickedIs(sys.db.rows, ids, urgent);
      MarkAll(queue);
      PushAll(queue, urgent);
    }

    method DemoteOne(p: Id)
      requires Traced() && p in sys.queues.urgent
      modifies this
      ensures Traced() && start == old(start) && old(run) <= run
      ensures var q := old(sys).queues;
              sys == old(sys).(queues := q.(urgent := Without(q.urgent, p), bulk := q.bulk + [p]))
    {
      Do(Client(TakeUrgent(p)));
      Do(Client(PushJob(p, false)));
      assert sys.queues.held == old(sys).queues.held;
    }

    /** demote_fulltext: no paper loses its place in the queues altogether. */
    method DemoteFulltext(ids: seq<Id>) returns (moved: nat)
      requires Traced()
      modifies this
      ensures Traced() && start == old(start) && old(run) <= run
      ensures forall p :: p in sys.queues.urgent <==> p in old(sys).queues.urgent && p !in ids
      ensures forall p :: p in sys.queues.bulk <==>
          p in old(sys).queues.bulk || (p in old(sys).queues.urgent && p in ids)
      ensures sys == old(sys).(queues := old(sys).queues.(urgent := sys.queues.urgent, bulk := sys.queues.bulk))
      ensures old(sys).queues.bulk <= sys.queues.bulk && moved == |sys.queues.bulk| - |old(sys).queues.bulk|
      ensures moved == |set p | p in ids && p in old(sys).queues.urgent|
      ensures sys.queues.urgent == Unseen(old(sys).queues.urgent, set p | p in ids)
    {
      moved := 0;
      ghost var done: set<Id> := {};
      UnseenNone(sys.queues.urgent);
      for i := 0 to |ids|
        invariant forall p :: p in done <==> p in ids[..i] && p in old(sys).queues.urgent
        invariant moved == |done| && sys.queues.urgent == Unseen(old(sys).queues.urgent, done)
        invariant Traced() && start == old(start) && old(run) <= run
        invariant forall p :: p in sys.queues.urgent <==> p in old(sys).queues.urgent && p !in ids[..i]
        invariant forall p :: p in sys.queues.bulk <==>
                    p in old(sys).queues.bulk || (p in old(sys).queues.urgent && p in ids[..i])
        invariant sys == old(sys).(queues := old(sys).queues.(urgent := sys.queues.urgent, bulk := sys.queues.bulk))
        invariant old(sys).queues.bulk <= sys.queues.bulk && moved == |sys.queues.bulk| - |old(sys).queues.bulk|
      {
        var p := ids[i];
        assert ids[..i + 1] == ids[..i] + [p];
        if p in sys.queues.urgent {  // false for a repeated id: LREM has removed every copy
          UnseenMore(old(sys).queues.urgent, done, p);
          DemoteOne(p);
          moved := moved + 1;
          done := done + {p};
        }
      }
      assert ids[..|ids|] == ids;
      assert done == set p | p in ids && p in old(sys).queues.urgent;
      UnseenSame(old(sys).queues.urgent, done, set p | p in ids);
    }
  }

  // ----- what the loops compute ------------------------------------------------------------------------------------

  function Unseen(ids: seq<Id>, seen: set<Id>): seq<Id> {
    if ids == [] then [] else (if ids[0] in seen then [] else [ids[0]]) + Unseen(ids[1..], seen)
  }

  lemma {:induction false} UnseenNone(ids: seq<Id>)
    ensures Unseen(ids, {}) == ids
  {
    if ids != [] { UnseenNone(ids[1..]); }
  }

  lemma {:induction false} UnseenMore(ids: seq<Id>, seen: set<Id>, p: Id)
    ensures Unseen(ids, seen + {p}) == Without(Unseen(ids, seen), p)
  {
    if ids != [] {
      UnseenMore(ids[1..], seen, p);
      var rest, less := Unseen(ids[1..], seen), Unseen(ids[1..], seen + {p});
      if ids[0] in seen {
        assert Unseen(ids, seen) == rest && Unseen(ids, seen + {p}) == less;
      } else {
        assert Unseen(ids, seen) == [ids[0]] + rest && Unseen(ids, seen)[1..] == rest;
        if ids[0] == p { assert Unseen(ids, seen + {p}) == less; }
      }
    }
  }

  lemma {:induction false} UnseenSame(ids: seq<Id>, a: set<Id>, b: set<Id>)
    requires forall p :: p in ids ==> (p in a <==> p in b)
    ensures Unseen(ids, a) == Unseen(ids, b)
  {
    if ids != [] { UnseenSame(ids[1..], a, b); }
  }

  /** What is unseen stays in order. */
  lemma {:induction false} UnseenInOrder(ids: seq<Id>, last: Id, seen: set<Id>)
    ensures Unseen(ids + [last], seen) == Unseen(ids, seen) + if last in seen then [] else [last]
  {
    if ids == [] {
      assert (ids + [last])[1..] == [];
    } else {
      UnseenInOrder(ids[1..], last, seen);
      assert (ids + [last])[1..] == ids[1..] + [last];
    }
  }

  lemma {:induction false} UnseenIs(ids: seq<Id>, seen: set<Id>)
    ensures forall p :: p in Unseen(ids, seen) <==> p in ids && p !in seen
  {
    if ids != [] { UnseenIs(ids[1..], seen); }
  }

  /** RPUSH of ids, in order, by the client that holds them. */
  function Pushed(s: Sys, ids: seq<Id>, urgent: bool): Sys {
    var held := s.queues.held - multiset(ids);
    if urgent then s.(queues := s.queues.(held := held, urgent := s.queues.urgent + ids))
    else s.(queues := s.queues.(held := held, bulk := s.queues.bulk + ids))
  }

  lemma {:induction false} PushedNext(s: Sys, ids: seq<Id>, i: nat, urgent: bool)
    requires i < |ids| && multiset(ids) <= s.queues.held
    ensures ids[i] in Pushed(s, ids[..i], urgent).queues.held
    ensures ClientApply(Pushed(s, ids[..i], urgent), PushJob(ids[i], urgent)) == Pushed(s, ids[..i + 1], urgent)
  {
    HeldNext(s.queues.held, ids, i);
    assert ids[..i + 1] == ids[..i] + [ids[i]];
  }

  lemma {:induction false} HeldNext(held: multiset<Id>, ids: seq<Id>, i: nat)
    requires i < |ids| && multiset(ids) <= held
    ensures ids[i] in held - multiset(ids[..i])
    ensures held - multiset(ids[..i]) - multiset{ids[i]} == held - multiset(ids[..i + 1])
  {
    var before, x := multiset(ids[..i]), ids[i];
    assert ids[..i + 1] == ids[..i] + [x];
    assert multiset(ids[..i + 1]) == before + multiset{x};
    assert ids == ids[..i] + [x] + ids[i + 1..];
    assert multiset(ids)[x] >= before[x] + 1;
    SubtractTwice(held, before, multiset{x});
  }

  lemma {:induction false} SubtractTwice(a: multiset<Id>, b: multiset<Id>, c: multiset<Id>)
    ensures a - b - c == a - (b + c)
  {}

  predicate ToParse(rows: map<Id, State>, p: Id) { p in rows && rows[p] == PdfFetched }

  predicate ToChunk(rows: map<Id, State>, p: Id) { p in rows && rows[p] != PdfFetched }

  /** Papers to push: those newly queued, and for an urgent request also those already waiting in either queue. */
  predicate ToQueue(rows: map<Id, Row>, p: Id, urgent: bool) {
    && p in rows
    && (OutcomeOf(rows, p) == Queued || (urgent && rows[p].state == QueuedFulltext))
  }

  /** The ids to push, each where it stands first among those given. */
  function Picked(rows: map<Id, Row>, ids: seq<Id>, urgent: bool): seq<Id> {
    if ids == [] then []
    else
      var init, p := ids[..|ids| - 1], ids[|ids| - 1];
      Picked(rows, init, urgent) + if p !in init && ToQueue(rows, p, urgent) then [p] else []
  }

  ghost predicate Classified(rows: map<Id, Row>, ids: seq<Id>, outcome: map<Id, Outcome>) {
    (forall p :: p in outcome <==> p in ids) && forall p :: p in outcome ==> outcome[p] == OutcomeOf(rows, p)
  }

  /** What each answer about a paper says. */
  predicate Answers(s: Sys, p: Id, o: Outcome) {
    match o
    case NotFound => p !in s.db.rows
    case AlreadyReady => s.Has(p, Ready)
    case AbstractOnlyPaper => s.Has(p, AbstractOnly)
    case InProgress => s.Has(p, QueuedFulltext) || Underway(s, p)
    case Queued => s.Has(p, MetadataDone) || s.Has(p, SignalsDone) || s.Has(p, Failed) || s.Has(p, Discovered)
  }

  /** The papers answered with `queued` are queued_fulltext afterwards. */
  function EnqueuedRow(s: Sys, outcome: map<Id, Outcome>, p: Id): Row
    requires p in s.db.rows
  {
    if p in outcome && outcome[p] == Queued then Row(QueuedFulltext, s.db.rows[p].fails) else s.db.rows[p]
  }

  lemma {:induction false} EnqueueMeans(
      s: Sys, ids: seq<Id>, outcome: map<Id, Outcome>, queue: seq<Id>, urgent: bool)
    requires Classified(s.db.rows, ids, outcome) && queue == Picked(s.db.rows, ids, urgent)
    ensures (forall p :: p in outcome <==> p in ids) && forall p :: p in outcome ==> Answers(s, p, outcome[p])
    ensures AllMarked(s.db.rows, queue).Keys == s.db.rows.Keys
    ensures forall p :: p in s.db.rows ==> AllMarked(s.db.rows, queue)[p] == EnqueuedRow(s, outcome, p)
    ensures forall p :: p in queue <==> p in outcome && (outcome[p] == Queued || (urgent && s.Has(p, QueuedFulltext)))
  {
    forall p ensures p in queue <==>
        p in outcome && (outcome[p] == Queued || (urgent && s.Has(p, QueuedFulltext)))
    {
      QueueMeans(s, ids, outcome, queue, urgent, p);
    }
    AllMarkedKeepsKeys(s.db.rows, queue);
    forall p | p in s.db.rows ensures AllMarked(s.db.rows, queue)[p] == EnqueuedRow(s, outcome, p) {
      RowMeans(s, ids, outcome, queue, urgent, p);
    }
    forall p | p in outcome ensures Answers(s, p, outcome[p]) { AnswerMeans(s, p); }
  }

  lemma {:induction false} AnswerMeans(s: Sys, p: Id)
    ensures Answers(s, p, OutcomeOf(s.db.rows, p))
  {}

  lemma {:induction false} QueueMeans(
      s: Sys, ids: seq<Id>, outcome: map<Id, Outcome>, queue: seq<Id>, urgent: bool, p: Id)
    requires Classified(s.db.rows, ids, outcome) && queue == Picked(s.db.rows, ids, urgent)
    ensures p in queue <==> p in outcome && (outcome[p] == Queued || (urgent && s.Has(p, QueuedFulltext)))
  {
    PickedIs(s.db.rows, ids, urgent);
  }

  lemma {:induction false} RowMeans(
      s: Sys, ids: seq<Id>, outcome: map<Id, Outcome>, queue: seq<Id>, urgent: bool, p: Id)
    requires Classified(s.db.rows, ids, outcome) && queue == Picked(s.db.rows, ids, urgent) && p in s.db.rows
    ensures p in AllMarked(s.db.rows, queue) && AllMarked(s.db.rows, queue)[p] == EnqueuedRow(s, outcome, p)
  {
    QueueMeans(s, ids, outcome, queue, urgent, p);
    AllMarkedAt(s.db.rows, queue, p);
  }

  /** Exactly the papers to push are picked, each once. */
  lemma {:induction false} PickedIs(rows: map<Id, Row>, ids: seq<Id>, urgent: bool)
    ensures Distinct(Picked(rows, ids, urgent))
    ensures forall p :: p in Picked(rows, ids, urgent) <==> p in ids && ToQueue(rows, p, urgent)
  {
    if ids != [] {
      PickedIs(rows, ids[..|ids| - 1], urgent);
      assert ids == ids[..|ids| - 1] + [ids[|ids| - 1]];
    }
  }

  function AllMarked(rows: map<Id, Row>, ids: seq<Id>): map<Id, Row> {
    if ids == [] then rows
    else
      var before, p := AllMarked(rows, ids[..|ids| - 1]), ids[|ids| - 1];
      if p in before && Enqueueable(before[p].state) then Marked(before, p, QueuedFulltext) else before
  }

  lemma {:induction false} AllMarkedKeepsKeys(rows: map<Id, Row>, ids: seq<Id>)
    ensures AllMarked(rows, ids).Keys == rows.Keys
  {
    if ids != [] { AllMarkedKeepsKeys(rows, ids[..|ids| - 1]); }
  }

  /** Enqueueing changes the state of the enqueueable papers among ids, and nothing else. */
  lemma {:induction false} AllMarkedAt(rows: map<Id, Row>, ids: seq<Id>, p: Id)
    requires p in rows
    ensures p in AllMarked(rows, ids)
    ensures AllMarked(rows, ids)[p]
         == if p in ids && Enqueueable(rows[p].state) then Row(QueuedFulltext, rows[p].fails) else rows[p]
  {
    if ids != [] {
      AllMarkedAt(rows, ids[..|ids| - 1], p);
      assert ids == ids[..|ids| - 1] + [ids[|ids| - 1]];
    }
  }
}
