/**
 * The chunking worker: one handled chunking message becomes an ordered list
 * of commands on the store (extend visibility, save the chunks, delete the
 * message, mark the chunk file and count it on its job, release the
 * semaphore).  Unlike the extraction rollup, the job update is an increment,
 * so handling the same message twice counts the file twice.
 */
module ChunkingWorker {
  import Text
  import opened Wrappers
  import opened DocumentModels
  import opened Store
  import DP = DocumentProcessing

  const MaxConcurrentTasks: int := 10
  const VisibilityTimeout: int := 600
  const DefaultChunkSize: int := 1000
  const DefaultChunkOverlap: int := 0

  /** The chunker the handler picks; the two size-based ones carry their parameters. */
  datatype Chunker =
    | JsonChunker
    | JsonlChunker
    | FixedSizeChunker(chunkSize: Option<int>, chunkOverlap: Option<int>)
    | RecursiveChunker(chunkSize: Option<int>, chunkOverlap: Option<int>)
    | PagewiseChunker

  /** The file extension: the last '.'-segment of the file name, case kept. */
  function Extension(fileName: string): string
  {
    Text.LastSegment(fileName, '.')
  }

  /** chunking_params.get('chunk_size', 1000): the default applies only when the key is absent; a null value passes through. */
  function ChunkSize(params: map<string, Option<int>>): Option<int>
  {
    if "chunk_size" in params then params["chunk_size"] else Some(DefaultChunkSize)
  }

  /** chunking_params.get('chunk_overlap', 0) */
  function ChunkOverlap(params: map<string, Option<int>>): Option<int>
  {
    if "chunk_overlap" in params then params["chunk_overlap"] else Some(DefaultChunkOverlap)
  }

  /**
   * The chunker for a file: json and jsonl files bypass the strategy; otherwise the strategy
   * names the chunker, and an unknown strategy raises ValueError.
   */
  function SelectChunker(extension: string, strategy: string, params: map<string, Option<int>>): (r: Result<Chunker, string>)
    ensures r.Err? <==> extension != "json" && extension != "jsonl" && ParseStrategy(strategy).None?
    ensures r.Ok? && r.value.PagewiseChunker? ==> strategy == "page"
  {
    if extension == "json" then Ok(JsonChunker)
    else if extension == "jsonl" then Ok(JsonlChunker)
    else if strategy == "fixed_size" then Ok(FixedSizeChunker(ChunkSize(params), ChunkOverlap(params)))
    else if strategy == "recursive" then Ok(RecursiveChunker(ChunkSize(params), ChunkOverlap(params)))
    else if strategy == "page" then Ok(PagewiseChunker)
    else Err("Invalid chunking strategy: " + strategy)
  }

  /** The result object the chunks of a message are saved under. */
  function ChunkKey(m: ChunkingMessage): string
  {
    m.appId + "/" + m.extractionJobId + "/" + m.fileName + "/chunk_" + m.chunkingJobId + ".json"
  }

  /** One step of the handler, in the order the handler performs it. */
  datatype Command =
    | ExtendVisibility
    | SaveChunks(key: string)
    | DeleteMessage(m: ChunkingMessage)
    | CompleteFile(chunkJobFileId: string, chunkingJobId: string)
    | ReleasePermit

  /** The chunking job after one more of its files completed: COMPLETED, one fewer queued, one more completed. */
  function CountCompletion(jobs: map<string, ChunkingJob>, chunkingJobId: string): (r: map<string, ChunkingJob>)
    ensures r.Keys == jobs.Keys
  {
    if chunkingJobId in jobs then
      var job := jobs[chunkingJobId];
      jobs[chunkingJobId := job.(status := "COMPLETED", queuedFiles := job.queuedFiles - 1, completedFiles := job.completedFiles + 1)]
    else jobs
  }

  /** The effect of one command on the store; the job is touched only when the file record was found. */
  function Step(s: State, c: Command): State
  {
    match c
    case ExtendVisibility => s
    case SaveChunks(key) => s.(resultObjects := s.resultObjects + {key})
    case DeleteMessage(m) => s.(chunkingQueue := s.chunkingQueue - multiset{m})
    case CompleteFile(fileId, jobId) =>
      if fileId in s.chunkingFiles then
        s.(chunkingFiles := s.chunkingFiles[fileId := s.chunkingFiles[fileId].(status := "COMPLETED")],
           chunkingJobs := CountCompletion(s.chunkingJobs, jobId))
      else s
    case ReleasePermit => s.(chunkingPermits := s.chunkingPermits + 1)
  }

  /** The effect of a list of commands, first to last. */
  function Run(s: State, cs: seq<Command>): State
    decreases |cs|
  {
    if cs == [] then s else Run(Step(s, cs[0]), cs[1..])
  }

  /** Does the handler get past chunking, saving and deleting for m? */
  predicate Chunked(m: ChunkingMessage, outcome: Outcome)
  {
    outcome == Success && SelectChunker(Extension(m.fileName), m.chunkingStrategy, m.chunkingParams).Ok?
  }

  /**
   * The commands handle_chunking issues for message m.  Every error (reading the extracted
   * text, chunking, an invalid strategy, saving the chunks) is raised after the visibility
   * extension and caught by the handler, which then only releases the permit.
   */
  function Plan(m: ChunkingMessage, outcome: Outcome): seq<Command>
  {
    if Chunked(m, outcome) then
      [ExtendVisibility, SaveChunks(ChunkKey(m)), DeleteMessage(m), CompleteFile(m.chunkJobFileId, m.chunkingJobId), ReleasePermit]
    else
      [ExtendVisibility, ReleasePermit]
  }

  // ---------------------------------------------------------------------
  // The handler over the shared platform.
  // ---------------------------------------------------------------------

  /** save_chunks_to_s3 */
  method SaveChunksToStore(p: Platform, key: string)
    modifies p
    ensures p.Snapshot() == Step(old(p.Snapshot()), SaveChunks(key))
  {
    p.resultObjects := p.resultObjects + {key};
  }

  /** Deletes one copy of the message from the chunking queue. */
  method DeleteChunkingMessage(p: Platform, m: ChunkingMessage)
    modifies p
    ensures p.Snapshot() == Step(old(p.Snapshot()), DeleteMessage(m))
  {
    p.chunkingQueue := p.chunkingQueue - multiset{m};
  }

  /** Marks the chunk file COMPLETED and, when both records exist, counts it on its job; a missing record is only logged. */
  method CompleteChunkFile(p: Platform, chunkJobFileId: string, chunkingJobId: string)
    modifies p
    ensures p.Snapshot() == Step(old(p.Snapshot()), CompleteFile(chunkJobFileId, chunkingJobId))
  {
    if chunkJobFileId in p.chunkingFiles {
      var file := p.chunkingFiles[chunkJobFileId];
      p.chunkingFiles := p.chunkingFiles[chunkJobFileId := file.(status := "COMPLETED")];
      if chunkingJobId in p.chunkingJobs {
        var job := p.chunkingJobs[chunkingJobId];
        job := job.(status := "COMPLETED");
        job := job.(queuedFiles := job.queuedFiles - 1);
        job := job.(completedFiles := job.completedFiles + 1);
        p.chunkingJobs := p.chunkingJobs[chunkingJobId := job];
      }
    }
  }

  /** The finally clause: gives the semaphore permit back. */
  method Release(p: Platform)
    modifies p
    ensures p.Snapshot() == Step(old(p.Snapshot()), ReleasePermit)
  {
    p.chunkingPermits := p.chunkingPermits + 1;
  }

  /** handle_chunking: picks the chunker, saves the chunks, deletes the message, then updates the records. */
  method HandleChunking(p: Platform, m: ChunkingMessage, outcome: Outcome)
    modifies p
    ensures p.Snapshot() == Run(old(p.Snapshot()), Plan(m, outcome))
  {
    ghost var target := Run(p.Snapshot(), Plan(m, outcome));
    ghost var rest := Plan(m, outcome);   // the commands still to perform
    var extension := Extension(m.fileName);
    // extend_visibility_timeout catches every error and changes no record
    rest := rest[1..];
    assert Run(p.Snapshot(), rest) == target;
    var chunker := SelectChunker(extension, m.chunkingStrategy, m.chunkingParams);
    if chunker.Ok? && outcome == Success {
      SaveChunksToStore(p, ChunkKey(m));
      rest := rest[1..];
      assert Run(p.Snapshot(), rest) == target;
      DeleteChunkingMessage(p, m);
      rest := rest[1..];
      assert Run(p.Snapshot(), rest) == target;
      CompleteChunkFile(p, m.chunkJobFileId, m.chunkingJobId);
      rest := rest[1..];
      assert Run(p.Snapshot(), rest) == target;
    }
    Release(p);
    rest := rest[1..];
    assert Run(p.Snapshot(), rest) == target;
    assert rest == [];
  }

  // ---------------------------------------------------------------------
  // Chunker selection for the messages admission sends.
  // ---------------------------------------------------------------------

  /**
   * Every message create_chunking_job sends can be chunked: json and jsonl files by their
   * extension, all others by the admitted strategy, with the request's size and overlap
   * when parameters were given (a null passes through) and 1000 and 0 when they were not.
   */
  lemma AdmittedMessageHasChunker(chunkingJobId: string, extractionJobId: string, strategy: ChunkingStrategy,
                                  params: Option<ChunkingParams>, appId: string, fileName: string, chunkJobFileId: string)
    ensures var m := DP.ChunkMessage(chunkingJobId, extractionJobId, strategy, params, appId, fileName, chunkJobFileId);
      var r := SelectChunker(Extension(m.fileName), m.chunkingStrategy, m.chunkingParams);
      var size := if params.Some? then params.value.chunkSize else Some(DefaultChunkSize);
      var overlap := if params.Some? then params.value.chunkOverlap else Some(DefaultChunkOverlap);
      r.Ok? &&
      (Extension(fileName) == "json" ==> r.value == JsonChunker) &&
      (Extension(fileName) == "jsonl" ==> r.value == JsonlChunker) &&
      (Extension(fileName) != "json" && Extension(fileName) != "jsonl" ==>
        r.value == match strategy
                   case FixedSize => FixedSizeChunker(size, overlap)
                   case Recursive => RecursiveChunker(size, overlap)
                   case Page => PagewiseChunker)
  {
  }

  /**
   * The i-th message admission sends names the i-th chunk-file record it saves, and the
   * worker saves that message's chunks under exactly the record's file_path.
   */
  lemma ChunkKeyIsRecordPath(chunkingJobId: string, extractionJobId: string, strategy: ChunkingStrategy, params: Option<ChunkingParams>,
                             appId: string, fileNames: seq<string>, ids: seq<(string, string)>, i: int)
    requires |ids| == |fileNames| && 0 <= i < |fileNames|
    ensures var m := DP.ChunkMessages(chunkingJobId, extractionJobId, strategy, params, appId, fileNames, ids)[i];
      var f := DP.ChunkFileRecords(chunkingJobId, extractionJobId, appId, fileNames, ids)[i];
      m.chunkJobFileId == f.chunkJobFileId && m.chunkingJobId == f.chunkingJobId &&
      ChunkKey(m) == f.filePath
  {
  }

  // ---------------------------------------------------------------------
  // What one handled message does to the store.
  // ---------------------------------------------------------------------

  lemma Run1(s: State, a: Command)
    ensures Run(s, [a]) == Step(s, a)
  {
    assert [a][1..] == [];
  }

  lemma Run2(s: State, a: Command, b: Command)
    ensures Run(s, [a, b]) == Step(Step(s, a), b)
  {
    assert [a, b][1..] == [b];
    Run1(Step(s, a), b);
  }

  lemma Run3(s: State, a: Command, b: Command, c: Command)
    ensures Run(s, [a, b, c]) == Step(Step(Step(s, a), b), c)
  {
    assert [a, b, c][1..] == [b, c];
    Run2(Step(s, a), b, c);
  }

  lemma Run4(s: State, a: Command, b: Command, c: Command, d: Command)
    ensures Run(s, [a, b, c, d]) == Step(Step(Step(Step(s, a), b), c), d)
  {
    assert [a, b, c, d][1..] == [b, c, d];
    Run3(Step(s, a), b, c, d);
  }

  lemma Run5(s: State, a: Command, b: Command, c: Command, d: Command, e: Command)
    ensures Run(s, [a, b, c, d, e]) == Step(Step(Step(Step(Step(s, a), b), c), d), e)
  {
    assert [a, b, c, d, e][1..] == [b, c, d, e];
    Run4(Step(s, a), b, c, d, e);
  }

  /**
   * The store after handling m.  When chunking succeeds, the chunks are saved under the
   * message's key, the message is deleted, the file record (when it exists) is COMPLETED and
   * its job (when it exists too) is COMPLETED with one file moved from queued to completed.
   * On any error nothing but the permit changes: no record says FAILED.
   */
  lemma PlanEffect(s: State, m: ChunkingMessage, outcome: Outcome)
    ensures var t := Run(s, Plan(m, outcome));
      t.chunkingPermits == s.chunkingPermits + 1 &&
      t.extractionJobs == s.extractionJobs && t.extractionFiles == s.extractionFiles &&
      t.vectorJobs == s.vectorJobs && t.vectorFiles == s.vectorFiles &&
      (!Chunked(m, outcome) ==> t == s.(chunkingPermits := s.chunkingPermits + 1)) &&
      (Chunked(m, outcome) ==>
        t.resultObjects == s.resultObjects + {ChunkKey(m)} &&
        t.chunkingQueue == s.chunkingQueue - multiset{m} &&
        (m.chunkJobFileId !in s.chunkingFiles ==> t.chunkingFiles == s.chunkingFiles && t.chunkingJobs == s.chunkingJobs) &&
        (m.chunkJobFileId in s.chunkingFiles ==>
          t.chunkingFiles == s.chunkingFiles[m.chunkJobFileId := s.chunkingFiles[m.chunkJobFileId].(status := "COMPLETED")] &&
          t.chunkingJobs == CountCompletion(s.chunkingJobs, m.chunkingJobId)))
  {
    if Chunked(m, outcome) {
      ChunkedRun(s, m);
    } else {
      Run2(s, ExtendVisibility, ReleasePermit);
    }
  }

  /** The five steps of a chunked message, field by field. */
  lemma ChunkedRun(s: State, m: ChunkingMessage)
    ensures var t := Run(s, [ExtendVisibility, SaveChunks(ChunkKey(m)), DeleteMessage(m), CompleteFile(m.chunkJobFileId, m.chunkingJobId), ReleasePermit]);
      t.chunkingPermits == s.chunkingPermits + 1 &&
      t.extractionJobs == s.extractionJobs && t.extractionFiles == s.extractionFiles &&
      t.vectorJobs == s.vectorJobs && t.vectorFiles == s.vectorFiles &&
      t.resultObjects == s.resultObjects + {ChunkKey(m)} &&
      t.chunkingQueue == s.chunkingQueue - multiset{m} &&
      (m.chunkJobFileId !in s.chunkingFiles ==> t.chunkingFiles == s.chunkingFiles && t.chunkingJobs == s.chunkingJobs) &&
      (m.chunkJobFileId in s.chunkingFiles ==>
        t.chunkingFiles == s.chunkingFiles[m.chunkJobFileId := s.chunkingFiles[m.chunkJobFileId].(status := "COMPLETED")] &&
        t.chunkingJobs == CountCompletion(s.chunkingJobs, m.chunkingJobId))
  {
    Run5(s, ExtendVisibility, SaveChunks(ChunkKey(m)), DeleteMessage(m), CompleteFile(m.chunkJobFileId, m.chunkingJobId), ReleasePermit);
  }

  /** The permit is given back exactly once, as the last step of every path. */
  lemma ReleasedOnce(m: ChunkingMessage, outcome: Outcome)
    ensures var plan := Plan(m, outcome);
      |plan| > 0 && plan[|plan| - 1] == ReleasePermit &&
      forall i :: 0 <= i < |plan| - 1 ==> !plan[i].ReleasePermit?
  {
  }

  /**
   * Handling a message never changes a job's queued + completed sum nor its failed count:
   * the worker moves one file from queued to completed and never counts a failure.
   */
  lemma CountsConserved(s: State, m: ChunkingMessage, outcome: Outcome, jobId: string)
    requires jobId in s.chunkingJobs
    ensures var t := Run(s, Plan(m, outcome));
      jobId in t.chunkingJobs &&
      t.chunkingJobs[jobId].queuedFiles + t.chunkingJobs[jobId].completedFiles ==
        s.chunkingJobs[jobId].queuedFiles + s.chunkingJobs[jobId].completedFiles &&
      t.chunkingJobs[jobId].failedFiles == s.chunkingJobs[jobId].failedFiles &&
      t.chunkingJobs[jobId].totalFileCount == s.chunkingJobs[jobId].totalFileCount
  {
    PlanEffect(s, m, outcome);
  }

  /**
   * The job is marked COMPLETED by its first completed file: with two or more files queued,
   * one successful message leaves the job COMPLETED while files are still queued.
   */
  lemma CompletedBeforeAllFiles(s: State, m: ChunkingMessage)
    requires Chunked(m, Success)
    requires m.chunkJobFileId in s.chunkingFiles && m.chunkingJobId in s.chunkingJobs
    requires s.chunkingJobs[m.chunkingJobId].queuedFiles >= 2
    ensures var t := Run(s, Plan(m, Success));
      m.chunkingJobId in t.chunkingJobs &&
      t.chunkingJobs[m.chunkingJobId].status == "COMPLETED" && t.chunkingJobs[m.chunkingJobId].queuedFiles >= 1
  {
    PlanEffect(s, m, Success);
  }

  /**
   * The job update is an increment, not a recount: a message delivered twice (its visibility
   * lapsed before the delete) counts its file twice, moving two files off the queued count.
   */
  lemma RedeliveryCountsTwice(s: State, m: ChunkingMessage)
    requires Chunked(m, Success)
    requires m.chunkJobFileId in s.chunkingFiles && m.chunkingJobId in s.chunkingJobs
    ensures var t := Run(Run(s, Plan(m, Success)), Plan(m, Success));
      m.chunkingJobId in t.chunkingJobs &&
      t.chunkingJobs[m.chunkingJobId].completedFiles == s.chunkingJobs[m.chunkingJobId].completedFiles + 2 &&
      t.chunkingJobs[m.chunkingJobId].queuedFiles == s.chunkingJobs[m.chunkingJobId].queuedFiles - 2
  {
    var mid := Run(s, Plan(m, Success));
    PlanEffect(s, m, Success);
    PlanEffect(mid, m, Success);
  }

  lemma PrefixStates(s: State, plan: seq<Command>, k: nat)
    requires 0 < k <= |plan|
    ensures Run(s, plan[..k]) == Step(Run(s, plan[..k - 1]), plan[k - 1])
  {
    assert plan[..k] == plan[..k - 1] + [plan[k - 1]];
    RunAppend(s, plan[..k - 1], [plan[k - 1]]);
    Run1(Run(s, plan[..k - 1]), plan[k - 1]);
  }

  lemma {:induction false} RunAppend(s: State, xs: seq<Command>, ys: seq<Command>)
    ensures Run(s, xs + ys) == Run(Run(s, xs), ys)
    decreases |xs|
  {
    if xs != [] {
      assert (xs + ys)[0] == xs[0] && (xs + ys)[1..] == xs[1..] + ys;
      RunAppend(Step(s, xs[0]), xs[1..], ys);
    } else {
      assert xs + ys == ys;
    }
  }

  /**
   * The message is deleted before the records are written: a crash between the two leaves
   * the chunks saved and the message gone, but the file and job records as they were, so
   * the file is never counted.
   */
  lemma CrashAfterDeleteLosesCompletion(s: State, m: ChunkingMessage)
    requires Chunked(m, Success)
    ensures var t := Run(s, Plan(m, Success)[..3]);
      t.chunkingQueue == s.chunkingQueue - multiset{m} &&
      ChunkKey(m) in t.resultObjects &&
      t.chunkingFiles == s.chunkingFiles && t.chunkingJobs == s.chunkingJobs
  {
    var plan := Plan(m, Success);
    assert plan[..0] == [];
    PrefixStates(s, plan, 1);
    PrefixStates(s, plan, 2);
    PrefixStates(s, plan, 3);
  }
}
