/**
 * Runs of the pipeline, from the empty system, that end in the three mishaps.
 */
module MishapRuns {
  import opened Protocol
  import opened ProtocolLaws
  import opened WorkItems
  import opened Mishaps

  /** The run leads from a to b. */
  predicate Leads(a: Sys, run: seq<Step>, b: Sys) { Valid(a, run) && Final(a, run) == b }

  lemma {:induction false} Along(states: seq<Sys>, run: seq<Step>)
    requires |states| == |run| + 1
    requires forall i :: 0 <= i < |run| ==> Enabled(states[i], run[i]) && Apply(states[i], run[i]) == states[i + 1]
    ensures Leads(states[0], run, states[|run|])
  {
    if run != [] {
      assert states[1..][0] == states[1];
      Along(states[1..], run[1..]);
    }
  }

  lemma {:induction false} Joined(a: Sys, f: seq<Step>, b: Sys, g: seq<Step>, c: Sys)
    requires Leads(a, f, b) && Leads(b, g, c)
    ensures Leads(a, f + g, c)
  {
    ValidAppend(a, f, g);
  }

  const FETCHER_UP: seq<Step> :=
    [Fetch(ReadUrgentQueue), Fetch(ReadBulkQueue), Fetch(SelectStuck), Fetch(PushLost([]))]

  const WORKER_UP: seq<Step> := [Worker(SelectRows), Worker(ReadPending), Worker(StartWorking)]

  const BOOT: seq<Step> := FETCHER_UP + WORKER_UP

  const UP := EMPTY.(fetcher := Idle, worker := Working)

  lemma {:induction false} FetcherBoots()
    ensures Leads(EMPTY, FETCHER_UP, EMPTY.(fetcher := Idle))
  {
    var s1 := Apply(EMPTY, FETCHER_UP[0]);
    var s2 := Apply(s1, FETCHER_UP[1]);
    var s3 := Apply(s2, FETCHER_UP[2]);
    Along([EMPTY, s1, s2, s3, EMPTY.(fetcher := Idle)], FETCHER_UP);
  }

  lemma {:induction false} WorkerBoots()
    ensures Leads(EMPTY.(fetcher := Idle), WORKER_UP, UP)
  {
    var s0 := EMPTY.(fetcher := Idle);
    var s1 := Apply(s0, WORKER_UP[0]);
    var s2 := Apply(s1, WORKER_UP[1]);
    Along([s0, s1, s2, UP], WORKER_UP);
  }

  lemma {:induction false} Boots()
    ensures Leads(EMPTY, BOOT, UP)
  {
    FetcherBoots();
    WorkerBoots();
    Joined(EMPTY, FETCHER_UP, EMPTY.(fetcher := Idle), WORKER_UP, UP);
  }

  function Requesting(p: Id): seq<Step> { [Client(MarkForFetch(p)), Client(PushJob(p, true)), Fetch(Pop)] }

  function Downloading(p: Id): seq<Step> { [Fetch(SelectRow), Fetch(Download), Fetch(MarkFetched)] }

  /** One request, and the download up to where it is announced. */
  function Fetching(p: Id): seq<Step> { Requesting(p) + Downloading(p) }

  function Requested(s: Sys, p: Id): Sys
    requires p in s.db.rows
  {
    s.(fetcher := Popped(p), db := s.db.(rows := Marked(s.db.rows, p, QueuedFulltext)))
  }

  function FetchedNow(s: Sys, p: Id): Sys
    requires p in s.db.rows
  {
    s.(fetcher := Announcing(p), files := s.files.(pdf := s.files.pdf + {p}),
       db := s.db.(rows := Marked(s.db.rows, p, PdfFetched)))
  }

  /** The paper can be requested, and nothing else is queued. */
  predicate Quiet(s: Sys, p: Id) {
    && p in s.db.rows && Enqueueable(s.db.rows[p].state) && s.fetcher.Idle?
    && s.queues.urgent == [] && s.queues.bulk == [] && s.queues.held == multiset{}
  }

  lemma {:induction false} IsRequested(s: Sys, p: Id)
    requires Quiet(s, p)
    ensures Leads(s, Requesting(p), Requested(s, p))
  {
    var s1 := Apply(s, Requesting(p)[0]);
    var s2 := Apply(s1, Requesting(p)[1]);
    assert s2.queues == s.queues.(urgent := [p]);
    assert Apply(s2, Requesting(p)[2]).queues == s.queues;
    Along([s, s1, s2, Requested(s, p)], Requesting(p));
  }

  lemma {:induction false} Fetches(s: Sys, p: Id)
    requires Quiet(s, p)
    ensures Leads(s, Fetching(p), FetchedNow(s, p))
  {
    var s0 := Requested(s, p);
    var s1 := Apply(s0, Downloading(p)[0]);
    var s2 := Apply(s1, Downloading(p)[1]);
    assert Apply(s2, Downloading(p)[2]).db.rows == FetchedNow(s, p).db.rows;
    Along([s0, s1, s2, FetchedNow(s, p)], Downloading(p));
    IsRequested(s, p);
    Joined(s, Requesting(p), s0, Downloading(p), FetchedNow(s, p));
  }

  /** The paper is on disk with k failures behind it, and has its parse job. */
  function OnDisk(p: Id, k: nat): Sys {
    UP.(db := UP.db.(rows := map[p := Row(PdfFetched, k)]), files := UP.files.(pdf := {p}),
        jobs := UP.jobs.(parse := {p}))
  }

  function Discovering(p: Id): seq<Step> { BOOT + [Client(Discover(p))] }

  function Known(p: Id): Sys { UP.(db := UP.db.(rows := map[p := Row(Discovered, 0)])) }

  lemma {:induction false} Discovers(p: Id)
    ensures Leads(EMPTY, Discovering(p), Known(p))
  {
    Boots();
    OneStep(UP, Client(Discover(p)));
    Joined(EMPTY, BOOT, UP, [Client(Discover(p))], Known(p));
  }

  function Arrival(p: Id): seq<Step> { Discovering(p) + Fetching(p) + [Fetch(Announce)] }

  lemma {:induction false} Arrives(p: Id)
    ensures Leads(EMPTY, Arrival(p), OnDisk(p, 0))
  {
    var t := FetchedNow(Known(p), p);
    Discovers(p);
    Fetches(Known(p), p);
    Joined(EMPTY, Discovering(p), Known(p), Fetching(p), t);
    OneStep(t, Fetch(Announce));
    assert Apply(t, Fetch(Announce)) == OnDisk(p, 0);
    Joined(EMPTY, Discovering(p) + Fetching(p), t, [Fetch(Announce)], OnDisk(p, 0));
  }

  // ----- a lost announcement ---------------------------------------------------------------------------------------

  function Attempt(p: Id): seq<Step> { [Parse(p, StartParse), Parse(p, ReadParseRow), Parse(p, ParseFails)] }

  lemma {:induction false} Attempts(p: Id, k: nat)
    requires k + 1 < MAX_PARSE_FAILURES
    ensures Leads(OnDisk(p, k), Attempt(p), OnDisk(p, k + 1))
  {
    var s1 := Apply(OnDisk(p, k), Attempt(p)[0]);
    var s2 := Apply(s1, Attempt(p)[1]);
    assert s2.running.parse - {p} == map[];
    assert Apply(s2, Attempt(p)[2]).db.rows == OnDisk(p, k + 1).db.rows;
    Along([OnDisk(p, k), s1, s2, OnDisk(p, k + 1)], Attempt(p));
  }

  /** The third failure deletes the PDF, and the worker dies before it can write abstract_only. */
  function LastAttempt(p: Id): seq<Step> { Attempt(p) + [Worker(WorkerDies)] }

  function WithoutPdf(p: Id): Sys { OnDisk(p, 2).(files := Files({}, {})) }

  lemma {:induction false} GivesUp(p: Id)
    ensures Leads(OnDisk(p, 2), LastAttempt(p), WithoutPdf(p).(worker := Stopped))
  {
    var run := LastAttempt(p);
    var s1 := Apply(OnDisk(p, 2), run[0]);
    var s2 := Apply(s1, run[1]);
    var s3 := Apply(s2, run[2]);
    assert s3.files == Files({}, {});
    Along([OnDisk(p, 2), s1, s2, s3, WithoutPdf(p).(worker := Stopped)], run);
  }

  function Restart(p: Id): seq<Step> {
    [Worker(SelectRows), Worker(RecoverRow(p)), Worker(ReadPending), Worker(StartWorking)]
  }

  lemma {:induction false} ComesBack(p: Id)
    ensures Leads(WithoutPdf(p).(worker := Stopped), Restart(p), WithoutPdf(p))
  {
    var s0, run := WithoutPdf(p).(worker := Stopped), Restart(p);
    var s1 := Apply(s0, run[0]);
    var s2 := Apply(s1, run[1]);
    assert s2.worker.rows == map[];
    var s3 := Apply(s2, run[2]);
    Along([s0, s1, s2, s3, WithoutPdf(p)], run);
  }

  /** The job, started again, finds no PDF. */
  function Missing(p: Id): seq<Step> {
    [Parse(p, StartParse), Parse(p, ReadParseRow), Parse(p, LookForPdf), Parse(p, MarkMissing)]
  }

  function Finished(p: Id): Sys {
    WithoutPdf(p).(db := UP.db.(rows := map[p := Row(Failed, 2)]), running := UP.running.(parse := map[p := ParseDone]))
  }

  lemma {:induction false} FindsNothing(p: Id)
    ensures Leads(WithoutPdf(p), Missing(p), Finished(p))
  {
    var s0, run := WithoutPdf(p), Missing(p);
    var s1 := Apply(s0, run[0]);
    var s2 := Apply(s1, run[1]);
    var s3 := Apply(s2, run[2]);
    assert Apply(s3, run[3]).db.rows == map[p := Row(Failed, 2)];
    assert Apply(s3, run[3]).running.parse == map[p := ParseDone];
    Along([s0, s1, s2, s3, Finished(p)], run);
  }

  /** The paper is requested and fetched once more before that job has ended. */
  function LosingRun(p: Id): seq<Step> {
    Arrival(p) + Attempt(p) + Attempt(p) + LastAttempt(p) + Restart(p) + Missing(p) + Fetching(p)
    + [Fetch(Announce), Parse(p, FinishParse)]
  }

  /** An announcement can be lost: the third failure, a worker crash, a new request, and the old job ends last. */
  lemma {:induction false} AnnouncementCanBeLost(p: Id)
    ensures Valid(EMPTY, LosingRun(p)) && Forgotten(ToParse, Final(EMPTY, LosingRun(p)), p)
  {
    var run, t := Arrival(p), FetchedNow(Finished(p), p);
    Arrives(p);
    Attempts(p, 0);
    Joined(EMPTY, run, OnDisk(p, 0), Attempt(p), OnDisk(p, 1));
    Attempts(p, 1);
    Joined(EMPTY, run + Attempt(p), OnDisk(p, 1), Attempt(p), OnDisk(p, 2));
    GivesUp(p);
    run := run + Attempt(p) + Attempt(p);
    Joined(EMPTY, run, OnDisk(p, 2), LastAttempt(p), WithoutPdf(p).(worker := Stopped));
    ComesBack(p);
    Joined(EMPTY, run + LastAttempt(p), WithoutPdf(p).(worker := Stopped), Restart(p), WithoutPdf(p));
    FindsNothing(p);
    run := run + LastAttempt(p) + Restart(p);
    Joined(EMPTY, run, WithoutPdf(p), Missing(p), Finished(p));
    Fetches(Finished(p), p);
    Joined(EMPTY, run + Missing(p), Finished(p), Fetching(p), t);
    Loses(p);
    Joined(EMPTY, run + Missing(p) + Fetching(p), t, [Fetch(Announce), Parse(p, FinishParse)], Lost(p));
  }

  function Lost(p: Id): Sys { OnDisk(p, 2).(jobs := UP.jobs) }

  lemma {:induction false} Loses(p: Id)
    ensures Leads(FetchedNow(Finished(p), p), [Fetch(Announce), Parse(p, FinishParse)], Lost(p))
    ensures Forgotten(ToParse, Lost(p), p)
  {
    var s0, run := FetchedNow(Finished(p), p), [Fetch(Announce), Parse(p, FinishParse)];
    var s1 := Apply(s0, run[0]);
    var s2 := Apply(s1, run[1]);
    assert s2.running.parse == map[] && s2.jobs.parse == {} && s2.files.pdf == {p};
    assert s2.db.rows == map[p := Row(PdfFetched, 2)];
    Along([s0, s1, s2], run);
  }

  // ----- an abandoned paper ----------------------------------------------------------------------------------------

  /** The third failure deletes the PDF, and the job dies before it can write abstract_only. */
  function AbandoningRun(p: Id): seq<Step> {
    Arrival(p) + Attempt(p) + Attempt(p) + LastBreath(p)
  }

  function LastBreath(p: Id): seq<Step> { Attempt(p) + [Parse(p, ParseJobDies)] }

  function Orphan(p: Id): Sys { OnDisk(p, 2).(files := Files({}, {}), jobs := UP.jobs) }

  lemma {:induction false} Orphans(p: Id)
    ensures Leads(OnDisk(p, 2), LastBreath(p), Orphan(p))
  {
    var run := LastBreath(p);
    var s1 := Apply(OnDisk(p, 2), run[0]);
    var s2 := Apply(s1, run[1]);
    var s3 := Apply(s2, run[2]);
    assert s3.files == Files({}, {});
    assert Apply(s3, run[3]).running.parse == map[] && Apply(s3, run[3]).jobs.parse == {};
    Along([OnDisk(p, 2), s1, s2, s3, Orphan(p)], run);
  }

  /** One job that dies at the wrong moment is enough for a paper that nobody can ever take further. */
  lemma {:induction false} PapersCanBeAbandoned(p: Id)
    ensures Valid(EMPTY, AbandoningRun(p)) && Abandoned(Final(EMPTY, AbandoningRun(p)), p)
    ensures !CanMove(Final(EMPTY, AbandoningRun(p)), p)
  {
    Arrives(p);
    Attempts(p, 0);
    Joined(EMPTY, Arrival(p), OnDisk(p, 0), Attempt(p), OnDisk(p, 1));
    Attempts(p, 1);
    Joined(EMPTY, Arrival(p) + Attempt(p), OnDisk(p, 1), Attempt(p), OnDisk(p, 2));
    Orphans(p);
    Joined(EMPTY, Arrival(p) + Attempt(p) + Attempt(p), OnDisk(p, 2), LastBreath(p), Orphan(p));
    ReachableIsGood(AbandoningRun(p), p);
    MovesIff(Orphan(p), p);
  }

  // ----- unresolved references -------------------------------------------------------------------------------------

  function Reading(p: Id): seq<Step> { [Parse(p, StartParse), Parse(p, ReadParseRow), Parse(p, WriteTei)] }

  function HandingOn(p: Id): seq<Step> { [Parse(p, MarkParsed), Parse(p, QueueChunk), Parse(p, FinishParse)] }

  function TeiThere(p: Id): Sys {
    OnDisk(p, 0).(files := Files({p}, {p}), running := UP.running.(parse := map[p := TeiWritten]))
  }

  function WithTei(p: Id): Sys {
    UP.(db := UP.db.(rows := map[p := Row(Parsed, 0)]), files := Files({p}, {p}), jobs := UP.jobs.(chunk := {p}))
  }

  lemma {:induction false} Reads(p: Id)
    ensures Leads(OnDisk(p, 0), Reading(p), TeiThere(p))
  {
    var s1 := Apply(OnDisk(p, 0), Reading(p)[0]);
    var s2 := Apply(s1, Reading(p)[1]);
    assert Apply(s2, Reading(p)[2]).running.parse == map[p := TeiWritten];
    Along([OnDisk(p, 0), s1, s2, TeiThere(p)], Reading(p));
  }

  lemma {:induction false} HandsOver(p: Id)
    ensures Leads(TeiThere(p), HandingOn(p), WithTei(p))
  {
    var s1 := Apply(TeiThere(p), HandingOn(p)[0]);
    var s2 := Apply(s1, HandingOn(p)[1]);
    var s3 := Apply(s2, HandingOn(p)[2]);
    assert s3.running.parse == map[] && s3.jobs.parse == {} && s3.db.rows == map[p := Row(Parsed, 0)];
    Along([TeiThere(p), s1, s2, s3], HandingOn(p));
  }

  function Storing(p: Id): seq<Step> { [Chunk(p, StartChunk), Chunk(p, ReadChunkRow), Chunk(p, CommitChunks)] }

  function MakingReady(p: Id): seq<Step> { [Chunk(p, DeletePdf), Chunk(p, AddPending), Chunk(p, MarkReady)] }

  function JustStored(p: Id): Sys {
    UP.(db := Database(map[p := Row(Embedded, 0)], {p}, {p}, {p}), files := Files({p}, {p}),
        jobs := UP.jobs.(chunk := {p}), running := UP.running.(chunk := map[p := Committed]))
  }

  function ReadyNow(p: Id): Sys {
    UP.(db := Database(map[p := Row(Ready, 0)], {p}, {p}, {p}), files := Files({}, {p}),
        jobs := UP.jobs.(chunk := {p}), queues := UP.queues.(pending := {p}),
        running := UP.running.(chunk := map[p := MarkedReady]))
  }

  lemma {:induction false} Stores(p: Id)
    ensures Leads(WithTei(p), Storing(p), JustStored(p))
  {
    var s1 := Apply(WithTei(p), Storing(p)[0]);
    var s2 := Apply(s1, Storing(p)[1]);
    var s3 := Apply(s2, Storing(p)[2]);
    assert s3.db.rows == map[p := Row(Embedded, 0)] && s3.running.chunk == map[p := Committed];
    Along([WithTei(p), s1, s2, s3], Storing(p));
  }

  lemma {:induction false} Readies(p: Id)
    ensures Leads(JustStored(p), MakingReady(p), ReadyNow(p))
  {
    var s1 := Apply(JustStored(p), MakingReady(p)[0]);
    var s2 := Apply(s1, MakingReady(p)[1]);
    var s3 := Apply(s2, MakingReady(p)[2]);
    assert s3.db.rows == map[p := Row(Ready, 0)] && s3.running.chunk == map[p := MarkedReady];
    assert s3.files.pdf == {};
    Along([JustStored(p), s1, s2, s3], MakingReady(p));
  }

  /** The resolution loses a deadlock, and the job is tried again. */
  function Retrying(p: Id): seq<Step> { [Chunk(p, RetryChunk), Chunk(p, StartChunk)] }

  function StartedAgain(p: Id): Sys { ReadyNow(p).(running := UP.running.(chunk := map[p := ChunkStarted])) }

  /** It finds the paper ready. */
  function Skipping(p: Id): seq<Step> { [Chunk(p, ReadChunkRow), Chunk(p, FinishChunk)] }

  function Unresolved(p: Id): Sys { ReadyNow(p).(jobs := UP.jobs, running := UP.running) }

  lemma {:induction false} Retries(p: Id)
    ensures Leads(ReadyNow(p), Retrying(p), StartedAgain(p))
  {
    var s1 := Apply(ReadyNow(p), Retrying(p)[0]);
    var s2 := Apply(s1, Retrying(p)[1]);
    assert s2.running.chunk == map[p := ChunkStarted];
    Along([ReadyNow(p), s1, s2], Retrying(p));
  }

  lemma {:induction false} Skips(p: Id)
    ensures Leads(StartedAgain(p), Skipping(p), Unresolved(p))
  {
    var s1 := Apply(StartedAgain(p), Skipping(p)[0]);
    var s2 := Apply(s1, Skipping(p)[1]);
    assert s2.running.chunk == map[] && s2.jobs.chunk == {};
    Along([StartedAgain(p), s1, s2], Skipping(p));
  }

  function UnresolvedRun(p: Id): seq<Step> {
    Arrival(p) + Reading(p) + HandingOn(p) + Storing(p) + MakingReady(p) + Retrying(p) + Skipping(p)
  }

  predicate IsDeath(t: Step) {
    t == Fetch(FetcherDies) || t == Worker(WorkerDies) || (t.Client? && t.c.ClientDies?)
    || (t.Parse? && t.x.ParseJobDies?) || (t.Chunk? && t.y.ChunkJobDies?) || (t.Refs? && t.z.RefsJobDies?)
  }

  predicate NobodyDies(run: seq<Step>) { forall i :: 0 <= i < |run| ==> !IsDeath(run[i]) }

  lemma {:induction false} ReachesUnresolved(p: Id)
    ensures Leads(EMPTY, UnresolvedRun(p), Unresolved(p))
  {
    var run := Arrival(p);
    Arrives(p);
    Reads(p);
    Joined(EMPTY, run, OnDisk(p, 0), Reading(p), TeiThere(p));
    HandsOver(p);
    Joined(EMPTY, run + Reading(p), TeiThere(p), HandingOn(p), WithTei(p));
    run := run + Reading(p) + HandingOn(p);
    Stores(p);
    Joined(EMPTY, run, WithTei(p), Storing(p), JustStored(p));
    Readies(p);
    Joined(EMPTY, run + Storing(p), JustStored(p), MakingReady(p), ReadyNow(p));
    run := run + Storing(p) + MakingReady(p);
    Retries(p);
    Joined(EMPTY, run, ReadyNow(p), Retrying(p), StartedAgain(p));
    Skips(p);
    Joined(EMPTY, run + Retrying(p), StartedAgain(p), Skipping(p), Unresolved(p));
  }

  /** References can stay unresolved though nobody dies: one deadlock is enough. */
  lemma {:induction false} ReferencesCanStayUnresolved(p: Id)
    ensures Valid(EMPTY, UnresolvedRun(p)) && NeverResolved(Final(EMPTY, UnresolvedRun(p)), p)
    ensures NobodyDies(UnresolvedRun(p))
  {
    ReachesUnresolved(p);
    ReachableIsGood(UnresolvedRun(p), p);
    StaysUnresolved(Unresolved(p), p);
    assert NobodyDies(Arrival(p)) && NobodyDies(Reading(p)) && NobodyDies(HandingOn(p));
    assert NobodyDies(Storing(p)) && NobodyDies(MakingReady(p));
    assert NobodyDies(Retrying(p)) && NobodyDies(Skipping(p));
  }
}
