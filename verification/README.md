# arXiv Research Engine: a verified model of the paper pipeline and the answer run

This Dafny project models the parts of the repository in which state, order and failure interact, and proves what the
rest of the system relies on. `dafny verify dfyconfig.toml` checks all of it.

| file | what it models |
|---|---|
| `Common.dfy` | what several modules use |
| `Protocol.dfy`, `ProtocolLaws.dfy`, `Stages.dfy` | the full-text pipeline: clients that enqueue and demote, one fetcher, one worker with parse, chunk and resolve jobs, as a protocol in which every write is a step and either process can die between any two; its invariant; the source's operations as sequences of those steps |
| `WorkItems.dfy`, `ProtocolGuarantees.dfy`, `Mishaps.dfy`, `MishapRuns.dfy` | when a paper on its way is forgotten, step by step and exactly; what the protocol guarantees over whole runs; three ways in which it drops a work item for longer than one would expect, with the exact condition and a run from the start for each |
| `References.dfy`, `Matching.dfy` | reference resolution, stubs, citation edges and counts, as a cache of the raw references; what each row points to, from the lookups and its own fields |
| `Evidence.dfy`, `EvidenceChoice.dfy` | the three-phase choice of an answer's passages; which passages each phase takes, one by one |
| `PageRank.dfy`, `RankFlow.dfy` | the power iteration, over real numbers, and the node numbering around it; where the rank of each paper goes in one step |
| `Documents.dfy`, `Layout.dfy`, `Chunking.dfy`, `Chunks.dfy`, `ChunkCuts.dfy` | the canonical text with its offsets, the reader that splits it again, and the overlapping chunks; why each chunk ends where it does, and how over-long sentences are split |
| `Tei.dfy`, `TeiReading.dfy` | TEI documents as element trees, written and read back; what is read from any tree |
| `FetchLoop.dfy`, `FetchPlanning.dfy`, `FetchReports.dfy` | waiting for full text as a function of an arbitrary environment and clock; the plan and the loop as the source writes them; on whose word a paper counts as fetched or failed |
| `Verifying.dfy`, `Verdicts.dfy`, `AnswerText.dfy` | verification against an untrusted verifier; when each sentence is kept, reworded or removed, in both directions; tag filtering and citation numbers |
| `RunSteps.dfy`, `RunOrder.dfy`, `RunEndings.dfy`, `RunExamples.dfy` | the step log of a run over any number of crashes and resumptions; where its order is not that of the pipeline; what its status says; three runs whose logs may surprise |
| `RateLimit.dfy`, `Llm.dfy` | the sliding window and the daily counter; the retry loop and the cache of the LLM client |

Each component is described by functions on values; methods in the source's imperative form (loops, lists that grow,
objects changed in place) are proved to compute those functions, and the properties are lemmas about them. The
database engine, Redis, the clock, the LLM, the tokenizer and the text searches are parameters: whatever they answer,
the properties hold.

Where the code does not do what a reader might expect, the project says so exactly:

- A parse job announced while the previous job of the same id has nothing left to do but end is refused, and the paper
  stays `pdf_fetched` without a job until the worker restarts: `Mishaps.AnnouncementLostIff` says exactly when. It
  takes an earlier death of the worker or of the paper's parse job (`Mishaps.NoAnnouncementLostWithoutDeaths`); a run
  that gets there has the worker die between deleting a PDF and writing `abstract_only`
  (`MishapRuns.AnnouncementCanBeLost`).
- A deadlock during reference resolution retries the chunk job, which skips a paper that is already `ready`; its
  references stay unresolved until the worker restarts: exactly when in `Mishaps.RetryStrandsIff`, and a run in which
  nobody dies in `MishapRuns.ReferencesCanStayUnresolved`.
- A parse job that dies after it deleted the PDF of a third failure and before it wrote `abstract_only` (a failing UPDATE
  is enough) leaves a paper that no restart, no request and no recovery ever takes further, in spite of what the module
  comment of `workers/arq_worker.py` promises: a `pdf_fetched` paper can still move exactly if it has its PDF, a parse
  job, or is being announced (`Mishaps.MovesIff`); `WorkItems.AbandonedAfter` lists the steps that abandon a paper, and
  `MishapRuns.PapersCanBeAbandoned` is a run that does.
- `WorkItems.Drops` lists, for each stage, the steps after which only a restart of the process concerned (or a new
  request, for a queued paper) takes a paper further, the PDF of a fetched one being on disk: an unexpected error in the
  fetcher, a client or the fetcher dying between a state change and the push, a job that dies for good, and the first two
  cases above, each only when nothing else stands for the paper. `WorkItems.ForgottenAfter` proves the list exact in both
  directions.
- A paper inserted after it was cited starts with count 0 (`References.InsertedCounts`).
- With any negative `fetch_spare` FETCH can wait for nothing (`FetchPlanning.StuckWithNegativeSpare`); with none it
  never does (`FetchPlanning.NeverStuck`).
- FETCH can give the time limit as its reason with time left and papers missing, exactly when the last asking itself
  crossed the minimum because papers turned out to be ready while they were asked for
  (`FetchLoop.TimeLimitWithTimeLeftIff`; `FetchLoop.StopsAtTheMinimum` shows that it happens).
- A resumed run whose saved passages are gone ends with two `write` rows; `RunSteps.OneRowPerTypeIff` says exactly when
  a type is doubled, and `RunExamples.PassagesGone` is such a run.
- In deep mode the chain step stands after a later one exactly if some attempt carried it out with the passages taken
  over from the log (`RunOrder.ChainPlace`; `RunExamples.ChainAfterPassages` is such a run).
- When verification or consensus fails, the other goes on: its row can be inserted after the error row, with a lower
  number, even after the run has failed (`RunExamples.RowBelowTheError`); which rows can be overtaken, and by which, is
  exact in `RunOrder.InsertedBelowIff`. Numbers stay distinct all the same (`RunSteps.NumbersAreFresh`).
- A reference without an id whose raw text names one does not survive writing and reading
  (`Tei.IdInRawTextIsAdded`), and of several abstracts only the first is read back (`Tei.ParseOfTei`).

## Model

| member | source | states |
|---|---|---|
| ProtocolGuarantees.RestartForgetsNothing | backend/workers/arq_worker.py:167-180 | For each stage: after any history of enqueues, demotions, fetches, parses, chunkings and crashes, from any moment at which the process that recovers this stage is down, and through any further crashes of either process, a paper (if fetched, with its PDF on disk) is never without somebody to take it further, unless a step drops this very paper's work item; and a fetched paper without PDF is beyond any restart exactly if a step of the history abandoned it |
| ProtocolGuarantees.FetcherRestart | backend/workers/fetcher.py:55-69 | So once the fetcher has recovered, a paper in queued_fulltext has a fetch job or is in a client's or the fetcher's hands, whatever the worker does |
| ProtocolGuarantees.WorkerRestart | backend/workers/arq_worker.py:167-180 | And once the worker has, a pdf_fetched paper with its PDF on disk has a parse job or is just being announced, a parsed or embedded one a chunk job or a parse job about to queue it, a ready one with unresolved references a resolve job or a chunk job about to resolve them, whatever the fetcher does |
| WorkItems.ForgottenAfter | backend/workers/arq_worker.py:51-78 | Step by step and for each stage, both directions: a paper (if fetched, with its PDF on disk) becomes one that nobody will take further exactly by the steps listed in Drops, each with its condition on this paper, and stays so exactly until the process that recovers it goes down or a client asks for it again; it covers the steps of the fetcher, the clients, the worker and its jobs |
| WorkItems.AbandonedAfter | backend/ingest/pipeline.py:117-130 | The same for a fetched paper whose PDF is gone: it is abandoned exactly when its parse job ends, or the fetcher gives up announcing it, and stays so whatever happens |
| Mishaps.MovesIff | backend/workers/arq_worker.py:167-180 | A pdf_fetched paper can still leave that state, by some continuation, if and only if it has its PDF, a parse job, or is being announced |
| MishapRuns.PapersCanBeAbandoned | backend/ingest/pipeline.py:117-122 | A run from the empty system in which one parse job dies between deleting the PDF and writing abstract_only, after which the paper can never move |
| ProtocolGuarantees.AtRestEveryPaperHasItsJob | backend/workers/fetcher.py:55-69 | With nothing in flight for the paper, each stage has its job outright, though the two processes were down at different moments |
| ProtocolGuarantees.DataIsWrittenFirst | backend/ingest/pipeline.py:129-175 | At every reachable state parsed implies the TEI is written, embedded or ready implies chunks and references were committed, and together, and a paper whose edges are stale is embedded or in refs:pending |
| Mishaps.AnnouncementLostIff | backend/workers/fetcher.py:121-126 | A parse job announced for a fetched PDF is lost, whatever happens until the job of that id ends, if and only if that job was running and had nothing left to do but end |
| Mishaps.NoAnnouncementLostWithoutDeaths | backend/ingest/pipeline.py:117-130 | On runs from the start in which neither the worker nor the paper's parse job dies, the end of a parse job never drops its paper, and a fetched paper has its PDF until its job gives up |
| MishapRuns.AnnouncementCanBeLost | backend/workers/arq_worker.py:51-60 | A run from the empty system that loses one: two failures, a third that deletes the PDF, a worker death before abstract_only is written, a restart, a new request while the old job is still ending |
| Mishaps.RetryStrandsIff | backend/workers/arq_worker.py:67-72 | After a retried chunk job nothing resolves the paper's references before the worker dies, whatever anybody does, if and only if the paper was marked ready, its references are unresolved, and there is no resolve job |
| MishapRuns.ReferencesCanStayUnresolved | backend/ingest/pipeline.py:199-222 | A run from the empty system that gets there with one deadlock though nobody dies |
| ProtocolGuarantees.FinishedIsForever | backend/ingest/pipeline.py:202-209 | ready and abstract_only are absorbing under every interleaving (without janitor evictions) |
| ProtocolGuarantees.NoSecondDownload | backend/workers/fetcher.py:90-93 | However many duplicate jobs are queued, a paper that left queued_fulltext is not downloaded again until a request queues it from an enqueueable state |
| ProtocolGuarantees.SharedBudget | backend/workers/fetcher.py:98-114 | fail_count is exactly the number of failed fetches and parses over any run, never more than three, and the third leaves the paper abstract_only |
| ProtocolGuarantees.GivenUpIff | backend/workers/fetcher.py:98-114 | Over every run a paper is abstract_only if and only if three attempts on it have failed or one fetch has failed for good |
| ProtocolGuarantees.OutcomesDecrease | backend/ingest/pipeline.py:117-130 | Every completed fetch, parse or chunk outcome lowers (attempts left, stages left) lexicographically; only queueing a paper raises it |
| ProtocolLaws.RunKeeps | backend/ingest/pipeline.py:83-138 | Every step of every actor keeps the invariant that ties rows, files, queues, job ids and what each process remembers; the stage functions are cited, the steps cover all four files |
| ProtocolLaws.StepKeeps | backend/workers/fetcher.py:71-126 | One step of any actor keeps that invariant for every paper |
| Stages.Pipeline.FetchPdf | backend/workers/fetcher.py:90-126 | Its writes are protocol steps in order; uninterrupted, it skips a paper not queued, hands a fetched one to the parser, retries a soft failure at the back of the bulk queue, and gives up on a permanent or third failure |
| Stages.Pipeline.NextJob | backend/workers/fetcher.py:71-82 | Jobs are taken from the front of the urgent queue, and of the bulk queue only when that is empty |
| Stages.Pipeline.ParsePaper | backend/ingest/pipeline.py:83-138 | Two GROBID attempts, then the fallback parser; a missing PDF, a counted failure kept for retry, the third failure, and success, each with its whole effect on rows, files and jobs |
| Stages.Pipeline.ChunkPaper | backend/ingest/pipeline.py:153-178 | A parsed or embedded paper becomes ready with its edges built, chunks and references stored and the PDF deleted; any other is skipped |
| Stages.Pipeline.Finalize | backend/ingest/pipeline.py:202-235 | Pending is added before ready and removed after the edges are built |
| Stages.Pipeline.RecoverFetches | backend/workers/fetcher.py:55-69 | The stuck papers no queued job stands for are pushed to the bulk queue in order; afterwards every queued paper has a job |
| Stages.Pipeline.RecoverWorker | backend/workers/arq_worker.py:167-180 | Exactly the fetched papers with a PDF get parse jobs, the parsed and embedded ones chunk jobs, the pending ones resolve jobs, beside the jobs already there |
| Stages.Pipeline.EnqueueFulltext | backend/core/fetchq.py:49-85 | Every id gets the outcome that its state stands for; the papers answered `queued` are queued_fulltext afterwards and no other row changes; those, and for urgent requests the ones already waiting, are pushed once each, in order |
| Stages.Pipeline.DemoteFulltext | backend/core/fetchq.py:88-98 | The ids leave the urgent queue, the others keep their order there; each that was in it is appended to the bulk queue once, and the answer is how many; no paper loses its place in the queues altogether |
| Stages.PickedIs | backend/core/fetchq.py:64-78 | What is pushed is, in the order given, each enqueueable paper once, and for urgent requests each one already waiting |
| Stages.AllMarkedAt | backend/core/fetchq.py:79-83 | Enqueueing changes the state of the enqueueable papers among the ids, and of no other |
| References.EdgesFollowReferences | backend/ingest/references.py:263-277 | Over any sequence of storing, resolving (with stubs rewriting other papers), claiming and inserting, a paper's edges are the distinct ids its references resolve to other than itself, unless it was re-stored and not resolved since |
| References.CountsStayRight | backend/ingest/references.py:280-297 | Over any such sequence no stored count becomes different from the in-degree, except that of a paper inserted when edges already pointed at it |
| References.InsertedCounts | backend/workers/fetcher.py:155-163 | An insertion makes a count wrong if and only if the paper is new and already cited |
| References.ResolvingTwice | backend/ingest/references.py:122-205 | resolve_for_paper is idempotent from any state and for any order of titles and papers: a second run changes no row, edge, stub or count |
| References.ResolvedSyncs | backend/ingest/references.py:189-205 | Resolving one paper brings its edges and those of every paper it touched in step, and puts none out of step |
| References.ResolvedCorrects | backend/ingest/references.py:204-205 | It makes no count wrong, and right the count of every node the paper cites |
| References.RebuildSyncs | backend/ingest/references.py:263-277 | rebuild_edges syncs its paper and leaves the edges of all others alone |
| References.RebuildCorrects | backend/ingest/references.py:280-297 | After rebuild_edges a count is wrong if and only if it was wrong and its node is neither cited now nor before |
| References.StubbedRow | backend/ingest/references.py:227-257 | The stub pass, row by row: a row points to the stub of its title if and only if it pointed nowhere and the title has a stub now |
| References.StillRare | backend/ingest/references.py:227-230 | A title left without a stub is cited by fewer than the minimum of distinct papers |
| References.Closest | backend/ingest/references.py:82-85 | The picked candidate is one of them and minimises the distance in years |
| Matching.MatchResolves | backend/ingest/references.py:133-187 | Matching finds x if and only if x is the first answer, of the arXiv id, the exact match (the first candidate without a year, else the first nearest in year), the trigram with a year and the two of the catalogue in that order, that is not the citing paper; titles count from 10 characters |
| Matching.ResolvedRow | backend/ingest/references.py:133-204 | After resolve_for_paper a reference of the paper points to paper x exactly if x is that first answer, to some paper exactly if one of the five gives another paper, and otherwise to the stub of its usable title, if there is one |
| Matching.ResolvedEdges | backend/ingest/references.py:134-204 | The paper cites x afterwards exactly if one of its references resolves to x; an arXiv id other than its own always does |
| Matching.StubIff | backend/ingest/references.py:194-246 | A title has a stub afterwards if and only if it had one, or it is a usable title of an unmatched reference of the paper that enough distinct papers lack a paper for |
| Matching.OtherRow | backend/ingest/references.py:239-246 | A reference of another paper changes only from nothing to the stub of a title that an unmatched reference of the paper has |
| Matching.NewlyRow | backend/ingest/references.py:300-312 | resolve_new_papers resolves exactly the null references whose usable title a new paper other than the citing one has, to such a paper |
| Matching.StoredRow | backend/ingest/references.py:53-63 | store_references leaves one unresolved row per reference with its normalized title, and other papers' rows as they were |
| References.NewlySyncs | backend/ingest/references.py:300-311 | resolve_new_papers keeps the edges of every paper in step |
| References.NewlyLeavesNoClaim | backend/ingest/references.py:300-308 | Afterwards no unresolved reference has the title of one of the new papers |
| References.Graph.StoreReferences | backend/ingest/references.py:53-63 | The paper's rows are replaced by the new ones, unresolved |
| References.Graph.RebuildEdges | backend/ingest/references.py:263-277 | The edges are replaced by the targets and the counts of old and new targets refreshed |
| References.Graph.MatchReferences | backend/ingest/references.py:133-187 | The five passes give each reference the first match other than the citing paper |
| References.Graph.ResolveStubs | backend/ingest/references.py:208-260 | With counts and stubs read once, the loop does what title-by-title treatment does, then rebuilds every other touched paper |
| References.Graph.ResolveForPaper | backend/ingest/references.py:122-205 | The passes, the reset of stub rows, the stubs and the rebuilding, as one function of the old state |
| References.Graph.ResolveNewPapers | backend/ingest/references.py:300-311 | Claims the unresolved rows and rebuilds their papers |
| Evidence.PassIsOptimal | backend/retrieval/search.py:277-281 | The exchange argument: whatever eligible passages a rival picks under the per-paper and overall caps, the greedy pass picks at least as many and its j-th is ranked at least as high |
| Evidence.RelevantPhaseOptimal | backend/retrieval/search.py:277-283 | Phase 1 is optimal among all relevant selections under both caps |
| Evidence.DetailPhaseOptimal | backend/retrieval/search.py:284-290 | Phase 2 is optimal for what phase 1 left, from papers with a relevant passage |
| Evidence.FillPhaseOptimal | backend/retrieval/search.py:291-297 | Phase 3 takes the best remaining passages up to the minimum |
| Evidence.DetailIsWeaker | backend/retrieval/search.py:284-290 | Every passage phase 2 adds is below passage_min_score and of a paper with a relevant passage |
| Evidence.BelowMinimumMeansFull | backend/retrieval/search.py:291-297 | If fewer than the minimum are chosen, every passage left out is of a paper at its cap |
| EvidenceChoice.FirstTakes | backend/retrieval/search.py:277-281 | A passage is chosen by the first loop if and only if it scores at least passage_min_score and those chosen before it leave room in the answer and for its paper |
| EvidenceChoice.DetailTakes | backend/retrieval/search.py:283-290 | By the second, if and only if its paper has a chosen relevant passage, it scores at least passage_detail_min_score, and fewer than passage_detail_max were added, with room in the answer and for its paper |
| EvidenceChoice.FillTakes | backend/retrieval/search.py:291-297 | By the third, if and only if fewer than min_passages_kept are chosen by then, with room in the answer and for its paper |
| Evidence.PassIsGreedy | backend/retrieval/search.py:270-275 | The pass is greedy at every prefix of the ranking |
| Evidence.PassCaps | backend/retrieval/search.py:274-275 | A pass never takes a paper past its cap |
| Evidence.RankedSorts | backend/retrieval/search.py:266 | Ranking is a permutation in decreasing score |
| Evidence.RankedIsStable | backend/retrieval/search.py:266 | Ranking keeps the given order among equal scores |
| Evidence.SelectEvidence | backend/retrieval/search.py:257-303 | The three loops, with their counts, are the three phases; the result is in rank order |
| PageRank.PagerankConverges | backend/ingest/citations.py:20-37 | On every non-empty graph the result is a probability vector, the loop is left by the tolerance exit, and the stationary vector is within 0.85/0.15 tolerances |
| PageRank.ToleranceIsReached | backend/ingest/citations.py:32-36 | On every graph the change is below the tolerance by the 147th of the 200 rounds |
| PageRank.StepContracts | backend/ingest/citations.py:33 | One step brings any two vectors closer by the damping factor in L1 |
| PageRank.StepPreservesMass | backend/ingest/citations.py:33 | One step keeps the total at 1, dangling nodes included |
| PageRank.IteratesAreProbabilities | backend/ingest/citations.py:31-36 | Every iterate is non-negative and sums to 1 |
| PageRank.ChangeShrinks | backend/ingest/citations.py:32-36 | The k-th change is at most 2 * 0.85^k |
| PageRank.StationaryUnique | backend/ingest/citations.py:33 | There is at most one stationary vector |
| RankFlow.StepAt | backend/ingest/citations.py:26-33 | The new rank of paper j, from the edge list alone: 0.85 of the sum over its citations of the citing paper's rank over the number of its citations, plus 0.85 of an even share of the rank of papers that cite nothing, plus an even share of 0.15 |
| RankFlow.UncitedGetsTheEvenPart | backend/ingest/citations.py:33 | A paper nobody cites gets exactly the part that every paper gets |
| RankFlow.CitedGetsMore | backend/ingest/citations.py:33 | A paper cited by one of positive rank gets more than that |
| RankFlow.StopsAtTheFirstSmallChange | backend/ingest/citations.py:31-37 | The result is the first iterate that differs from the one before by less than 1e-10 in all, within 200 rounds |
| PageRank.SmallChangeIsClose | backend/ingest/citations.py:34-35 | A step that changed little has landed close to the stationary vector |
| PageRank.Pagerank | backend/ingest/citations.py:20-37 | The loop returns the iterate at which the tolerance is first met, or the last one |
| PageRank.IndexNodes | backend/ingest/citations.py:43-48 | The nodes are the endpoints of the edges, numbered 0 to n - 1 without repetition, and the edge list refers to them |
| PageRank.Papers.Recompute | backend/ingest/citations.py:40-59 | Exactly the cited papers carry a score afterwards, each that of its own node; stubs carry none |
| Layout.LayOut | backend/ingest/chunking.py:47-73 | The appending printer gives the text, sentence spans and heading ranges of the document |
| Layout.PageIsExact | backend/ingest/chunking.py:66-72 | Every sentence span slices back to its sentence, and the spans are in order and apart |
| Layout.ReaderRoundTrip | frontend/src/components/paper-reader.tsx:36-51 | For every non-empty document whose headings and sentences hold no newline, the reader's blocks are exactly the headings and paragraphs in order, with the right heading flags |
| Layout.BlocksRecoverExactly | frontend/src/components/paper-reader.tsx:40-49 | Splitting at blank lines gives back the printed pieces if and only if there is one, none holds a blank line and none but the last ends in a newline |
| Layout.FlagsAreExact | frontend/src/components/paper-reader.tsx:37-43 | A block is flagged as a heading exactly if it is one |
| Layout.Blocks | frontend/src/components/paper-reader.tsx:36-51 | The index loop computes the scan |
| Chunking.Group | backend/ingest/chunking.py:102-128 | The loop cuts the spans into windows that start at the overlap that fits and end exactly where a cut is due, the last small remainder merged |
| Chunks.NewPartsAreTheSpans | backend/ingest/chunking.py:105-128 | The chunks' parts that are not overlap, in order, are exactly the span list |
| Chunks.NeighboursShareTheOverlap | backend/ingest/chunking.py:110-116 | Consecutive chunks share a proper suffix of at most overlap_tokens within one section, as long as it can be, and each chunk starts after the one before |
| Chunks.ChunksFit | backend/ingest/chunking.py:109-120 | token_count is at most max_tokens unless the chunk is one over-long span |
| Chunks.ShortChunksAreFull | backend/ingest/chunking.py:107-110 | A chunk that another follows is under min_tokens only because the next span would pass max_tokens |
| ChunkCuts.EndsAtFirstDueCut | backend/ingest/chunking.py:105-112 | A chunk ends at the first of its new spans after which the next one would pass max_tokens, or, from min_tokens on, would pass target_tokens or is of another section; otherwise where the spans end |
| ChunkCuts.MergedIffSmall | backend/ingest/chunking.py:122-128 | What is left after the last cut joins the chunk before if and only if it is under min_tokens and both together fit |
| ChunkCuts.SpansAreSentences | backend/ingest/chunking.py:95-100 | The spans are those of the sentences in order: the sentence itself if it has at most max_tokens, else its pieces |
| ChunkCuts.SplitEvenly | backend/ingest/chunking.py:76-87 | With one piece more than the sentence's tokens fill chunks, rounded up, every piece but the last has the words per piece that suffice, rounded up, and each has its part of the tokens, rounded up |
| Chunks.StartsIncrease | backend/ingest/chunking.py:130-140 | Chunk starts and ends strictly increase in the text |
| Chunking.SplitCovers | backend/ingest/chunking.py:76-87 | The pieces of an over-long sentence cover it, dropping one space between neighbours |
| Chunking.SpansInOrder | backend/ingest/chunking.py:95-100 | Spans stay in order and inside the text, split or not |
| Chunking.OverlapIsLongest | backend/ingest/chunking.py:144-153 | The overlap is the longest proper suffix within the limit |
| Chunking.TakeOverlap | backend/ingest/chunking.py:144-153 | The backwards loop computes that suffix |
| Chunking.SplitLongSentence | backend/ingest/chunking.py:76-87 | The word loop computes the pieces |
| Chunking.CeilDivRoundsUp | backend/ingest/chunking.py:80-85 | The quotient is rounded up: it is enough, and one less would not be |
| Chunks.ChunkDocument | backend/ingest/chunking.py:90-141 | Text, spans, windows and chunks of a whole document; every chunk text is its slice |
| FetchLoop.BelowTheMinimum | backend/agent/run.py:501-615 | For every world: FETCH ends below the minimum only when exhausted, when a turn that was cancelled ended it, when the clock, read last, was past the safety stop, or with every turn of the world waited for and the clock short of it |
| FetchLoop.FetchMeans | backend/agent/run.py:541-600 | For every world, what each reason for ending means: which cancellation, which reading of the clock, with all that is wanted asked for |
| FetchLoop.TimeLimitWithTimeLeftIff | backend/agent/run.py:541-600 | With the budget never shown by the clock, FETCH names the time limit if and only if the last asking itself crossed the minimum and papers are missing that could be fetched |
| FetchLoop.StopsAtTheMinimum | backend/agent/run.py:533-549 | If every paper turns out to be ready while asked for, FETCH stops at the minimum and names the time limit, whatever the clock shows |
| FetchLoop.OneFateEach | backend/agent/run.py:447-478 | For every world: ready gained + failed + pending = queued, no paper twice, pending distinct and at most max(0, goal - ready) + spare |
| FetchReports.NoFateUntold | backend/agent/run.py:467-474 | For every world: every failed paper was reported abstract_only, missing or otherwise not ready by an answer, a message or a row; every queued paper neither failed nor pending was reported ready; with no report of one kind nothing counts as that |
| FetchReports.TurnDecides | backend/agent/run.py:568-585 | A turn settles exactly the pending papers that its message or rows name, each by the first of them that does |
| FetchReports.AnswersDecide | backend/agent/run.py:541-549 | A request settles exactly the papers of its batch that it answers already_ready, abstract_only or not_found |
| FetchReports.ReasonIff | backend/agent/run.py:594-601 | Unless cancelled or still waiting, FETCH gives the one reason of the four that its plan bears out |
| FetchPlanning.MissingIsDistinct | backend/agent/run.py:512-518 | The papers to wait for are distinct when the selected ones are |
| FetchPlanning.FetchPlan.NextBatch | backend/agent/run.py:457-465 | Queues the next candidates up to the goal plus spares, as the function of the plan says |
| FetchPlanning.FetchPlan.Finish | backend/agent/run.py:467-474 | A pending paper reported ready leaves the pending ones and raises `ready` by one, and nothing else; one reported otherwise leaves them and is appended to `failed`, and nothing else; any other id changes nothing |
| FetchPlanning.NeverStuck | backend/agent/run.py:541-549 | After each enqueue loop the plan is done, exhausted or has something pending, for every spare count of at least zero |
| FetchPlanning.StuckWithNegativeSpare | backend/agent/run.py:459-461 | For every negative spare count some plan is none of these |
| FetchPlanning.GoalIsLeast | backend/agent/run.py:437-439 | The goal is the least whole number not below the share, between 0 and all papers |
| FetchPlanning.StepFetch | backend/agent/run.py:501-615 | The loop over the plan ends for every world as the function of that world says: reason, plan and number of clock readings |
| Verifying.VerifySentences | backend/agent/run.py:235-297 | For every verifier output exactly one final per sentence, in order, each the outcome of the verdicts on its own place in its batch (last result with its index, or none) |
| Verdicts.SentenceFate | backend/agent/run.py:235-297 | What becomes of each sentence, from the verdicts on its places (the last result for place p mod n of batch p div n): it is kept if and only if judged supported with an excerpt and its names there, or reworded and confirmed so by the second verdict; in which words, with which excerpt and source; and each reason for removal if and only if it applies |
| Verdicts.AppliedDecides | backend/agent/run.py:350-378 | One verdict keeps, rewords or removes a sentence exactly under the stated conditions, each reason if and only if it applies |
| Verdicts.SpanSourceIs | backend/agent/verify.py:41-52 | The source recorded is the first cited one that contains at least 20 characters of the excerpt, and there is one if and only if some cited source does |
| Verdicts.InventsIs | backend/agent/verify.py:62-67 | A rewrite alters math if and only if it has a formula that neither the sentence nor, its delimiters aside, the joined texts of the cited sources have |
| Verdicts.AboutMore | backend/agent/verify.py:79-88 | Names are looked for in the titles, authors, statuses and texts of the known cited sources, in order, joined with spaces |
| Verifying.NothingUnbacked | backend/agent/run.py:350-378 | A sentence not removed had a valid tag, keeps exactly its tags, has a span in a source it cites and no missing name; a kept rewrite was judged supported when re-checked |
| Verifying.StoreLookupsSucceed | backend/agent/run.py:895-922 | Whatever tags the writer wrote, every tag of every final is an offered source, by the tag filter and verification together, so the lookups while storing are total |
| Verifying.AppliedIsBacked | backend/agent/run.py:350-378 | What one verdict guarantees of a sentence that is not removed, rewritten formulas included |
| Verifying.FindSpan | backend/agent/verify.py:41-52 | The search loop finds the first cited source that holds the span |
| Verifying.FirstHoldingIs | backend/agent/verify.py:41-52 | The source found is cited and holds at least 20 characters copied from it; none is found only if none does |
| Verifying.MissingNames | backend/agent/verify.py:79-93 | The loop collects exactly the names the cited sources do not mention |
| Verifying.Rechecks | backend/agent/run.py:284-288 | The second round, indexed by sequence number, reaches each rewrite with the verdict of its own place |
| Verifying.ContainsIsSubstring | backend/agent/verify.py:50 | The containment test is the substring relation |
| AnswerText.GoodTags | backend/agent/text.py:96-106 | The kept tags are distinct offered sources, exactly those the writer's tags stand for |
| AnswerText.MeantIs | backend/agent/text.py:43-51 | A tag stands for an offered source if it is one, or if it is `c:` and an arXiv id whose abstract is offered, under the id's normal form if it has one |
| AnswerText.GoodInOrder | backend/agent/text.py:96-106 | The kept tags are in the order in which they are first meant |
| AnswerText.FilterTags | backend/agent/text.py:96-106 | The tag loop: kept, invalid and repaired tags |
| AnswerText.KindAndIdent | backend/agent/text.py:43-51 | A tag splits at its first colon |
| AnswerText.NumberCitations | backend/agent/text.py:131-139 | Papers keep their numbers, new ones get the next numbers without a gap in order of first citation, and if no two papers shared a number before, none do after |
| AnswerText.NewPapersInOrder | backend/agent/text.py:131-139 | New papers come in the order in which they are first cited |
| RunSteps.CompletedStepsAreNotRepeated | backend/agent/run.py:697-791 | Over any number of crashes and resumptions a step before verification is completed at most once |
| RunSteps.NumbersAreFresh | backend/agent/run.py:120-125 | No INSERT ever reuses a number, also when one concurrent step goes on after the other failed, and a new row comes after every completed row before verification |
| RunSteps.LogFollowsPipeline | backend/agent/run.py:697-803 | Completed rows by number follow the pipeline order with no type twice, the chain step aside |
| RunOrder.ChainPlace | backend/agent/run.py:734-745 | Over any number of attempts the chain step stands after the steps before it, and after a later one if and only if some attempt carried it out with the passages taken over from the log |
| RunOrder.InsertedBelowIff | backend/agent/run.py:118-125 | A row is inserted below an existing one if and only if the row of the other concurrent step, or the error row, has overtaken it; the other steps insert at the end |
| RunExamples.RowBelowTheError | backend/agent/run.py:683-691 | A run from the start that has failed, its error row logged with number 8, when verification inserts its row with number 7 |
| RunSteps.OneRowPerTypeIff | backend/agent/run.py:687-691 | Over any number of attempts two rows share a type if and only if, since the last attempt began, an error row was logged by a run without passages that had taken the write step over from the log, or by a failing run whose log had a write row |
| RunSteps.DoublesIff | backend/agent/run.py:93-107 | The same for one step: every other step keeps one row per type, and load_progress restores it |
| RunSteps.OneRowUnlessPassagesGone | backend/agent/run.py:749-767 | A run that logged no failure has one row per type unless it found itself without passages after taking over the write step |
| RunEndings.StatusIsTheLastWord | backend/agent/run.py:682-691 | Over any number of attempts the status is what the last deciding step says: done after the answer was stored or the lack of passages logged, cancelled after a cancellation, failed after an error was logged |
| RunEndings.DoneIsComplete | backend/agent/run.py:697-804 | A run that is done and stored its answer has a completed row of every step, chain and consensus aside, and no error row |
| RunExamples.PassagesGone | backend/agent/run.py:749-767 | A run from the start, stopped after its answer was written and resumed without its passages, that is done with two write rows |
| RunExamples.ChainAfterPassages | backend/agent/run.py:734-741 | A deep run from the start, resumed with time left, that logs its chain step after its passages |
| RunSteps.RunKeeps | backend/agent/run.py:93-126 | Every attempt keeps the order, the closure under earlier steps, what the resumed run believes finished, and the number of a concurrent step that was left running |
| RateLimit.GrantsApart | backend/core/ratelimit.py:76-82 | Each grant comes at least 60 s after the one `limit` places before it |
| RateLimit.TakeSlot | backend/core/ratelimit.py:76-82 | One attempt takes a slot if and only if fewer than `limit` grants fall into the last 60 s, else it says how long until the oldest of those leaves; the queue never exceeds the limit |
| RateLimit.Limiter.Acquire | backend/core/ratelimit.py:96-112 | With a sleep that lasts at least as asked, acquire sleeps at most once, exactly if no slot is free, for that long plus 0.05 s and at most 60 s, and takes exactly one slot |
| RateLimit.DailyCapHolds | backend/core/ratelimit.py:84-94 | Under every interleaving of INCR, refusal, late DECR and crash the requests sent on a day never exceed the cap, and with no refusal under way the counter is what was sent plus one per crash |
| RateLimit.AdmittedIff | backend/core/ratelimit.py:84-94 | At any moment of any interleaving a request is sent if and only if the counts not taken back are below the cap |
| Llm.CallIsBounded | backend/core/llm.py:275-362 | A call sends at most retries + 4 requests; its answer is the last reply, from the requested model or the light model when the main one was requested |
| Llm.BoundIsReached | backend/core/llm.py:302-347 | The bound is tight for every number of retries and every fallback limit: some upstream makes a call send exactly that many |
| Llm.RetriesSurvive | backend/core/llm.py:336-347 | As many passing failures as there are retries left are survived, and with one more the call fails when they are used up |
| Llm.OverloadFallsBackIff | backend/core/llm.py:309-330 | With the main model always overloaded the light one answers after exactly one overload more than are tolerated, if and only if the retries last until then |
| Llm.Client.Call | backend/core/llm.py:275-362 | The loop with its fallback, thinking rejection and retries, ending as the errors drive it |
| Llm.Client.Generate | backend/core/llm.py:217-273 | Every cached text is an answer that the model in its key gave to the prompt and parameters in its key, and satisfies the schema in its key; a fallback's answer is never cached; a hit sends nothing |
| Tei.ParseOfTei | backend/ingest/tei.py:117-170 | What reading back a written tree gives, for every document: the first abstract in front, collapsed safe text, nothing empty, references numbered anew without years |
| Tei.RoundTrip | backend/ingest/tei.py:117-170 | A well-formed document comes back, with its abstract in front and without reference years |
| Tei.ReferenceStaysIff | backend/ingest/tei.py:98-110 | A reference comes back, its year aside, if and only if its fields are clean and non-empty and its id is canonical, or absent also from its raw text |
| Tei.IdInRawTextIsAdded | backend/ingest/tei.py:107-109 | A reference without an id whose raw text names one comes back with that id |
| TeiReading.SectionsAreDivisions | backend/ingest/tei.py:72-91 | The sections read from any tree are those of the divisions at any depth with paragraphs of their own, outside back matter, in document order, and no others |
| TeiReading.DocumentParts | backend/ingest/tei.py:117-136 | The document is the first abstract, the divisions of the body, then those of the back as appendix, and the references numbered in order |
| TeiReading.IterIsDocumentOrder | backend/ingest/tei.py:94-110 | Iteration finds the elements with a tag at any depth, in document order, and no others |
| TeiReading.ParagraphIs | backend/ingest/tei.py:57-60 | A paragraph is its marked sentences that say something, and only without any the split of its text |
| TeiReading.ReferenceFields | backend/ingest/tei.py:98-110 | The title is the article's, failing that the volume's; a usable arXiv identifier gives the id |
| Tei.ParagraphComesBack | backend/ingest/tei.py:57-60 | A written paragraph is read back as its non-empty collapsed sentences |
| Tei.CleanTextIsClean | backend/ingest/tei.py:48-49 | Text read back once is read back unchanged ever after |
| Tei.ToTei | backend/ingest/tei.py:139-170 | The growing lists build that tree |
| Tei.Walk | backend/ingest/tei.py:72-87 | The recursive walk collects the sections, skipping whole back-matter divisions |

## Left out

- PageRank.StepContracts: the damping factor is the constant 0.85, the only value any caller passes.
- PageRank.PagerankConverges: floating-point rounding is not modelled; the iteration is over real numbers. That a
  stationary vector exists is not shown, only that there is at most one and that the result is close to it if there is.
- ProtocolGuarantees.FinishedIsForever: the janitor is left out; an eviction that overlaps a running parse can let a
  later download overwrite a finished paper.
- Stages.Pipeline.EnqueueFulltext: the push of several jobs is one push per paper, so the protocol allows more
  interleavings than Redis does; what publishes progress, metrics and log lines is left out.
- Stages.Pipeline.ChunkPaper: the text of the chunks and the resolution itself are in `Chunks.dfy` and
  `References.dfy`; the protocol keeps only that chunks and references were committed and that edges were rebuilt.
- References.Graph.ResolveForPaper: the statistics it returns are left out; rows come in any order, and what the papers
  table and the catalogue answer is fixed during one resolution.
- Layout.ReaderRoundTrip: characters are code points, as both programs count them.
- Chunks.ChunkDocument: requires max_tokens to be positive, as the division in `_split_long` does.
- FetchPlanning.StepFetch: runs for as many turns as the environment has; only the clock readings that decide something
  are modelled.
- Verifying.VerifySentences: text normalisation, name and formula extraction are arbitrary functions; batches are
  verified one after the other, their results combined as the source combines them; requires a positive batch size.
- AnswerText.FilterTags: splitting an answer into sentences is left out; only the treatment of a sentence's tags is
  modelled.
- Verdicts.SentenceFate: a formula of a rewrite is taken to have at least its two delimiters.
- RunSteps.CompletedStepsAreNotRepeated: what a step computes is left out; a step is its row in the log. A run whose
  ending was interrupted by an error is taken up again only by a worker that has started anew.
- RateLimit.Limiter.Acquire: one model's queue without Redis; the window script in Redis is left out.
- Llm.Client.Call: one call at a time; calls that share the set of models without thinking are not interleaved. The
  cache key is taken to be free of collisions.
- TeiReading.DocumentParts: what a path finds (`Tei.Find`) is the model's own depth-first search for the first match.
- Tei.ParseOfTei: serialisation and XML parsing are left out; trees have no text after a child element, and the retry on
  malformed XML is left out.
- Metadata and OAI jobs in the fetch queue: they only take queue entries; what they insert is in `References.dfy`.
- Search, ranking and gating of papers, signals, scores, digests, summaries, BibTeX, the API and the rest of the
  interface: plumbing or easier members.
