/**
 * The extraction worker: one handled queue message becomes an ordered list of
 * commands on the store (extend visibility, write the file status, recompute
 * the job, delete the message, release the semaphore).  The job rollup
 * recomputes its counters from the file records, so it is idempotent.
 */
module ExtractionWorker {
  import Text
  import opened DocumentModels
  import opened Store

  const MaxConcurrentTasks: int := 10
  const VisibilityTimeout: int := 600

  const TextractTypes: set<string> := {"pdf", "png", "jpg", "jpeg", "tiff"}
  const DirectTypes: set<string> := {"txt", "md", "html", "json", "jsonl"}

  /** Which branch of the handler a file takes. */
  datatype Route = Textract | Direct | Unsupported

  /** The file name a message refers to: the last '/'-segment of its path. */
  function FileNameOf(filePath: string): string
  {
    Text.LastSegment(filePath, '/')
  }

  /** The file type of a message: the lower-cased last '.'-segment of the whole path. */
  function FileTypeOf(filePath: string): string
  {
    Text.Lower(Text.LastSegment(filePath, '.'))
  }

  function RouteOf(filePath: string): (r: Route)
    ensures r == Textract <==> FileTypeOf(filePath) in TextractTypes
    ensures r == Direct <==> FileTypeOf(filePath) in DirectTypes
  {
    var t := FileTypeOf(filePath);
    if t in TextractTypes then Textract else if t in DirectTypes then Direct else Unsupported
  }

  /** One step of the handler, in the order the handler performs it. */
  datatype Command =
    | ExtendVisibility
    | UpdateFile(jobId: string, fileName: string, status: string)
    | UpdateJob(jobId: string)
    | DeleteMessage(m: ExtractionMessage)
    | ReleasePermit

  /** Keys of the file records of one job. */
  function FilesOf(files: map<(string, string), ExtractionJobFile>, jobId: string): set<(string, string)>
  {
    set k | k in files && k.0 == jobId
  }

  /** Keys of the file records of one job that have the given status. */
  function FilesWithStatus(files: map<(string, string), ExtractionJobFile>, jobId: string, status: string): set<(string, string)>
  {
    set k | k in files && k.0 == jobId && files[k].status == status
  }

  /** A file is done once it is COMPLETED or FAILED. */
  predicate FileDone(status: string)
  {
    status == "COMPLETED" || status == "FAILED"
  }

  predicate AllFilesDone(files: map<(string, string), ExtractionJobFile>, jobId: string)
  {
    forall k :: k in files && k.0 == jobId ==> FileDone(files[k].status)
  }

  /** The three statuses a finished job can take. */
  predicate TerminalStatus(status: string)
  {
    status == "COMPLETED" || status == "COMPLETED_WITH_ERRORS" || status == "FAILED"
  }

  /** Status of a job whose files are all done, from its completed and failed counts. */
  function FinalStatus(completed: int, failed: int): (r: string)
    ensures TerminalStatus(r)
    ensures r == "COMPLETED_WITH_ERRORS" <==> completed > 0 && failed > 0
    ensures r == "FAILED" <==> completed <= 0 && failed > 0
    ensures r == "COMPLETED" <==> failed <= 0
  {
    if failed > 0 && completed > 0 then "COMPLETED_WITH_ERRORS"
    else if failed > 0 then "FAILED"
    else "COMPLETED"
  }

  /** The job after update_job_entry: counters recomputed from the file records, status settled once every file is done. */
  function Rollup(jobId: string, job: ExtractionJob, files: map<(string, string), ExtractionJobFile>): (r: ExtractionJob)
    ensures r.(status := job.status, completedFileCount := job.completedFileCount, failedFileCount := job.failedFileCount) == job
    ensures r.status == job.status || TerminalStatus(r.status)
  {
    var total := |FilesOf(files, jobId)|;
    var completed := |FilesWithStatus(files, jobId, "COMPLETED")|;
    var failed := |FilesWithStatus(files, jobId, "FAILED")|;
    job.(status := if completed + failed == total then FinalStatus(completed, failed) else job.status,
         completedFileCount := completed,
         failedFileCount := failed)
  }

  /** The file table after update_job_file_entry: the record's status replaced when the record exists. */
  function SetFileStatus(files: map<(string, string), ExtractionJobFile>, key: (string, string), status: string): (r: map<(string, string), ExtractionJobFile>)
    ensures r.Keys == files.Keys
  {
    if key in files then files[key := files[key].(status := status)] else files
  }

  /** The job table after update_job_entry: the job rolled up over the given file table, when it exists. */
  function RollupIn(jobs: map<string, ExtractionJob>, jobId: string, files: map<(string, string), ExtractionJobFile>): (r: map<string, ExtractionJob>)
    ensures r.Keys == jobs.Keys
  {
    if jobId in jobs then jobs[jobId := Rollup(jobId, jobs[jobId], files)] else jobs
  }

  /**
   * What the extraction worker may change: job and file records (but no record is created or
   * removed), the extraction queue and the extraction semaphore; every other table, queue and
   * semaphore is as it was.
   */
  predicate WorkerFrame(s: State, r: State)
  {
    && r.extractionJobs.Keys == s.extractionJobs.Keys && r.extractionFiles.Keys == s.extractionFiles.Keys
    && r.chunkingJobs == s.chunkingJobs && r.chunkingFiles == s.chunkingFiles
    && r.vectorJobs == s.vectorJobs && r.vectorFiles == s.vectorFiles
    && r.vectorStores == s.vectorStores && r.vectorIndexes == s.vectorIndexes
    && r.chunkingQueue == s.chunkingQueue && r.vectorQueue == s.vectorQueue
    && r.resultObjects == s.resultObjects
    && r.chunkingPermits == s.chunkingPermits && r.vectorPermits == s.vectorPermits
  }

  /** The effect of one command on the store. */
  function Step(s: State, c: Command): (r: State)
    ensures WorkerFrame(s, r)
  {
    match c
    case ExtendVisibility => s
    case UpdateFile(jobId, fileName, status) => s.(extractionFiles := SetFileStatus(s.extractionFiles, (jobId, fileName), status))
    case UpdateJob(jobId) => s.(extractionJobs := RollupIn(s.extractionJobs, jobId, s.extractionFiles))
    case DeleteMessage(m) => s.(extractionQueue := s.extractionQueue - multiset{m})
    case ReleasePermit => s.(extractionPermits := s.extractionPermits + 1)
  }

  /** The effect of a list of commands, first to last. */
  function Run(s: State, cs: seq<Command>): (r: State)
    ensures WorkerFrame(s, r)
    decreases |cs|
  {
    if cs == [] then s else Run(Step(s, cs[0]), cs[1..])
  }

  lemma {:induction false} RunAppend(s: State, xs: seq<Command>, ys: seq<Command>)
    ensures Run(s, xs + ys) == Run(Run(s, xs), ys)
    decreases |xs|
  {
    if xs != [] {
      assert (xs + ys)[0] == xs[0] && (xs + ys)[1..] == xs[1..] + ys;
      RunAppend(Step(s, xs[0]), xs[1..], ys);
    } else {
      assert xs + ys == ys;
    }
  }

  lemma RunSnoc(s: State, cs: seq<Command>, c: Command)
    ensures Run(s, cs + [c]) == Step(Run(s, cs), c)
  {
    RunAppend(s, cs, [c]);
    assert [c][1..] == [];
  }

  /** The commands handle_extraction issues for message m when the external work ends with `outcome`. */
  function Plan(m: ExtractionMessage, outcome: Outcome): (r: seq<Command>)
    ensures |r| > 0 && r[|r| - 1] == ReleasePermit
  {
    var name := FileNameOf(m.filePath);
    match RouteOf(m.filePath)
    case Textract =>
      if outcome == FailOutside then [ReleasePermit]
      else if outcome == FailInside then
        [ExtendVisibility, UpdateFile(m.jobId, name, "FAILED"), UpdateJob(m.jobId), ReleasePermit]
      else
        [ExtendVisibility, UpdateFile(m.jobId, name, "COMPLETED"), UpdateJob(m.jobId), DeleteMessage(m), ReleasePermit]
    case Direct =>
      if outcome == Success then
        [ExtendVisibility, UpdateFile(m.jobId, name, "COMPLETED"), UpdateJob(m.jobId), DeleteMessage(m), ReleasePermit]
      else
        [ExtendVisibility, ReleasePermit]
    case Unsupported =>
      [DeleteMessage(m), UpdateFile(m.jobId, name, "FAILED"), UpdateJob(m.jobId), ReleasePermit]
  }

  // ---------------------------------------------------------------------
  // The handler and its two store updates, over the shared platform.
  // ---------------------------------------------------------------------

  /** update_job_file_entry: sets the file's status when its record exists; otherwise only logs. */
  method UpdateJobFileEntry(p: Platform, jobId: string, fileName: string, status: string)
    modifies p
    ensures p.Snapshot() == Step(old(p.Snapshot()), UpdateFile(jobId, fileName, status))
  {
    if (jobId, fileName) in p.extractionFiles {
      var f := p.extractionFiles[(jobId, fileName)];
      p.extractionFiles := p.extractionFiles[(jobId, fileName) := f.(status := status)];
    }
  }

  /** update_job_entry: recomputes the job's counters from its file records and settles its status once all are done. */
  method UpdateJobEntry(p: Platform, jobId: string)
    modifies p
    ensures p.Snapshot() == Step(old(p.Snapshot()), UpdateJob(jobId))
  {
    var total := |FilesOf(p.extractionFiles, jobId)|;
    var completed := |FilesWithStatus(p.extractionFiles, jobId, "COMPLETED")|;
    var failed := |FilesWithStatus(p.extractionFiles, jobId, "FAILED")|;
    if jobId in p.extractionJobs {
      var job := p.extractionJobs[jobId];
      if completed + failed == total {
        job := job.(status := FinalStatus(completed, failed));
      }
      job := job.(completedFileCount := completed, failedFileCount := failed);
      p.extractionJobs := p.extractionJobs[jobId := job];
    }
  }

  /** Deletes one copy of the message from the extraction queue. */
  method DeleteExtractionMessage(p: Platform, m: ExtractionMessage)
    modifies p
    ensures p.Snapshot() == Step(old(p.Snapshot()), DeleteMessage(m))
  {
    p.extractionQueue := p.extractionQueue - multiset{m};
  }

  /** The finally clause: gives the semaphore permit back. */
  method Release(p: Platform)
    modifies p
    ensures p.Snapshot() == Step(old(p.Snapshot()), ReleasePermit)
  {
    p.extractionPermits := p.extractionPermits + 1;
  }

  /** handle_extraction: dispatches on the file type and performs the branch's store updates in the source's order. */
  method HandleExtraction(p: Platform, m: ExtractionMessage, outcome: Outcome)
    modifies p
    ensures p.Snapshot() == Run(old(p.Snapshot()), Plan(m, outcome))
  {
    var route := RouteOf(m.filePath);
    if route == Textract {
      HandleTextract(p, m, outcome);
    } else if route == Direct {
      HandleDirect(p, m, outcome);
    } else {
      HandleUnsupported(p, m, outcome);
    }
  }

  /** The Textract branch: extract() may fail before the guarded block, which then only releases the permit. */
  method HandleTextract(p: Platform, m: ExtractionMessage, outcome: Outcome)
    requires RouteOf(m.filePath) == Textract
    modifies p
    ensures p.Snapshot() == Run(old(p.Snapshot()), Plan(m, outcome))
  {
    ghost var s0 := p.Snapshot();
    var fileName := FileNameOf(m.filePath);
    if outcome == FailOutside {
      Release(p);
      Run1(s0, ReleasePermit);
    } else {
      // extend_visibility_timeout catches every error and changes no record
      var status := if outcome == Success then "COMPLETED" else "FAILED";
      UpdateJobFileEntry(p, m.jobId, fileName, status);
      UpdateJobEntry(p, m.jobId);
      if outcome == Success {
        DeleteExtractionMessage(p, m);
        Release(p);
        Run5(s0, ExtendVisibility, UpdateFile(m.jobId, fileName, status), UpdateJob(m.jobId), DeleteMessage(m), ReleasePermit);
      } else {
        Release(p);
        Run4(s0, ExtendVisibility, UpdateFile(m.jobId, fileName, status), UpdateJob(m.jobId), ReleasePermit);
      }
    }
  }

  /** The direct-read branch: every error is caught after the visibility extension. */
  method HandleDirect(p: Platform, m: ExtractionMessage, outcome: Outcome)
    requires RouteOf(m.filePath) == Direct
    modifies p
    ensures p.Snapshot() == Run(old(p.Snapshot()), Plan(m, outcome))
  {
    ghost var s0 := p.Snapshot();
    var fileName := FileNameOf(m.filePath);
    // extend_visibility_timeout catches every error and changes no record
    if outcome == Success {
      UpdateJobFileEntry(p, m.jobId, fileName, "COMPLETED");
      UpdateJobEntry(p, m.jobId);
      DeleteExtractionMessage(p, m);
      Release(p);
      Run5(s0, ExtendVisibility, UpdateFile(m.jobId, fileName, "COMPLETED"), UpdateJob(m.jobId), DeleteMessage(m), ReleasePermit);
    } else {
      Release(p);
      Run2(s0, ExtendVisibility, ReleasePermit);
    }
  }

  /** The unsupported branch: the message is deleted before the file is marked FAILED. */
  method HandleUnsupported(p: Platform, m: ExtractionMessage, outcome: Outcome)
    requires RouteOf(m.filePath) == Unsupported
    modifies p
    ensures p.Snapshot() == Run(old(p.Snapshot()), Plan(m, outcome))
  {
    ghost var s0 := p.Snapshot();
    var fileName := FileNameOf(m.filePath);
    DeleteExtractionMessage(p, m);
    UpdateJobFileEntry(p, m.jobId, fileName, "FAILED");
    UpdateJobEntry(p, m.jobId);
    Release(p);
    Run4(s0, DeleteMessage(m), UpdateFile(m.jobId, fileName, "FAILED"), UpdateJob(m.jobId), ReleasePermit);
  }

  // ---------------------------------------------------------------------
  // Properties of the rollup.
  // ---------------------------------------------------------------------

  /** The completed and failed files of a job are disjoint subsets of its files; they fill it exactly when every file is done. */
  lemma StatusCountsBounded(files: map<(string, string), ExtractionJobFile>, jobId: string)
    ensures |FilesWithStatus(files, jobId, "COMPLETED")| + |FilesWithStatus(files, jobId, "FAILED")| <= |FilesOf(files, jobId)|
    ensures |FilesWithStatus(files, jobId, "COMPLETED")| + |FilesWithStatus(files, jobId, "FAILED")| == |FilesOf(files, jobId)|
            <==> AllFilesDone(files, jobId)
  {
    var all := FilesOf(files, jobId);
    var c := FilesWithStatus(files, jobId, "COMPLETED");
    var f := FilesWithStatus(files, jobId, "FAILED");
    assert c * f == {};
    var done := c + f;
    assert |done| == |c| + |f|;
    var rest := all - done;
    assert all == done + rest;
    assert done * rest == {};
    assert |all| == |done| + |rest|;
    if AllFilesDone(files, jobId) {
      assert all <= done;
    } else {
      var k :| k in files && k.0 == jobId && !FileDone(files[k].status);
      assert k in rest;
    }
  }

  /**
   * update_job_entry recomputes rather than increments: the counters never exceed the
   * file count, the status becomes terminal exactly when every file is done, and
   * otherwise the stored status is kept.  Nothing but status and counters changes.
   */
  lemma RollupSettles(jobId: string, job: ExtractionJob, files: map<(string, string), ExtractionJobFile>)
    ensures var r := Rollup(jobId, job, files);
      r.completedFileCount + r.failedFileCount <= |FilesOf(files, jobId)| &&
      (AllFilesDone(files, jobId) ==> TerminalStatus(r.status)) &&
      (!AllFilesDone(files, jobId) ==> r.status == job.status) &&
      r.(status := job.status, completedFileCount := job.completedFileCount, failedFileCount := job.failedFileCount) == job
  {
    StatusCountsBounded(files, jobId);
  }

  /** Rolling up twice over the same files is the same as rolling up once. */
  lemma RollupIdempotent(jobId: string, job: ExtractionJob, files: map<(string, string), ExtractionJobFile>)
    ensures Rollup(jobId, Rollup(jobId, job, files), files) == Rollup(jobId, job, files)
  {
  }

  /** A job without file records is settled to COMPLETED by any rollup. */
  lemma RollupWithoutFiles(jobId: string, job: ExtractionJob, files: map<(string, string), ExtractionJobFile>)
    requires forall k :: k in files ==> k.0 != jobId
    ensures Rollup(jobId, job, files).status == "COMPLETED"
    ensures Rollup(jobId, job, files).completedFileCount == 0 && Rollup(jobId, job, files).failedFileCount == 0
  {
    assert FilesOf(files, jobId) == {};
    assert FilesWithStatus(files, jobId, "COMPLETED") == {};
    assert FilesWithStatus(files, jobId, "FAILED") == {};
  }

  // ---------------------------------------------------------------------
  // The file a message refers to.
  // ---------------------------------------------------------------------

  /** For a registered file (its name has no '/'), the handler's file name is the registration key. */
  lemma FileNameIsRegistrationKey(appId: string, jobId: string, fileName: string)
    requires '/' !in fileName
    ensures FileNameOf(appId + "/" + jobId + "/" + fileName) == fileName
  {
    assert appId + "/" + jobId + "/" + fileName == (appId + "/" + jobId) + ['/'] + fileName;
    Text.LastSegmentConcat(appId + "/" + jobId, fileName, '/');
  }

  /** When the name has an extension, the handler sees the same type registration checked. */
  lemma FileTypeFollowsName(prefix: string, fileName: string)
    requires '.' in fileName
    ensures FileTypeOf(prefix + fileName) == Text.Lower(Text.LastSegment(fileName, '.'))
  {
    var t := Text.LastSegment(fileName, '.');
    Text.LastSegmentShape(fileName, '.');
    var u := fileName[..|fileName| - |t| - 1];
    assert fileName == u + ['.'] + t;
    assert prefix + fileName == (prefix + u) + ['.'] + t;
    Text.LastSegmentConcat(prefix + u, t, '.');
    Text.LastSegmentConcat(u, t, '.');
  }

  /** A path without any '.' (a registered name without extension under dot-free ids) is routed to the unsupported branch. */
  lemma NoExtensionIsUnsupported(appId: string, jobId: string, fileName: string)
    requires '.' !in appId + "/" + jobId + "/" + fileName
    ensures RouteOf(appId + "/" + jobId + "/" + fileName) == Unsupported
  {
    var path := appId + "/" + jobId + "/" + fileName;
    Text.LastSegmentNoSep(path, '.');
    var t := FileTypeOf(path);
    assert |t| == |path| && t[|appId|] == Text.LowerChar(path[|appId|]) == '/';
    assert '/' in t;
    assert forall x :: x in TextractTypes + DirectTypes ==> '/' !in x;
  }

  // ---------------------------------------------------------------------
  // What one handled message does to the records.
  // ---------------------------------------------------------------------

  /** The extraction tables of a state. */
  function Records(s: State): (map<string, ExtractionJob>, map<(string, string), ExtractionJobFile>)
  {
    (s.extractionJobs, s.extractionFiles)
  }

  /** The records after the handler has set the file to `status` and rolled its job up. */
  function Written(s: State, jobId: string, fileName: string, status: string): (map<string, ExtractionJob>, map<(string, string), ExtractionJobFile>)
  {
    var files := SetFileStatus(s.extractionFiles, (jobId, fileName), status);
    (RollupIn(s.extractionJobs, jobId, files), files)
  }

  /** Does the plan write the file and job records, and with which file status? */
  function WrittenStatus(m: ExtractionMessage, outcome: Outcome): (r: string)
  {
    match RouteOf(m.filePath)
    case Textract => if outcome == Success then "COMPLETED" else if outcome == FailInside then "FAILED" else ""
    case Direct => if outcome == Success then "COMPLETED" else ""
    case Unsupported => "FAILED"
  }

  /** Commands that leave the extraction records alone. */
  predicate Quiet(c: Command)
  {
    c.ExtendVisibility? || c.DeleteMessage? || c.ReleasePermit?
  }

  lemma Run1(s: State, a: Command)
    ensures Run(s, [a]) == Step(s, a)
  {
    assert [a][1..] == [];
  }

  lemma Run2(s: State, a: Command, b: Command)
    ensures Run(s, [a, b]) == Step(Step(s, a), b)
  {
    assert [a, b][1..] == [b];
    Run1(Step(s, a), b);
  }

  lemma Run4(s: State, a: Command, b: Command, c: Command, d: Command)
    ensures Run(s, [a, b, c, d]) == Step(Step(Step(Step(s, a), b), c), d)
  {
    assert [a, b, c, d][1..] == [b, c, d];
    assert [b, c, d][1..] == [c, d];
    Run2(Step(Step(s, a), b), c, d);
  }

  lemma Run5(s: State, a: Command, b: Command, c: Command, d: Command, e: Command)
    ensures Run(s, [a, b, c, d, e]) == Step(Step(Step(Step(Step(s, a), b), c), d), e)
  {
    assert [a, b, c, d, e][1..] == [b, c, d, e];
    Run4(Step(s, a), b, c, d, e);
  }

  /**
   * The records after handling m: on both success paths the file is COMPLETED and the job
   * rolled up; a failure after Textract started, or an unsupported type, writes FAILED and
   * rolls up; a failure in extract() or anywhere in the direct branch writes nothing.
   * The message is deleted exactly on the success paths and the unsupported path, and the
   * permit is given back on every path.
   */
  lemma PlanEffect(s: State, m: ExtractionMessage, outcome: Outcome)
    ensures var t := Run(s, Plan(m, outcome)); var st := WrittenStatus(m, outcome);
      (st == "" ==> Records(t) == Records(s)) &&
      (st != "" ==> FileDone(st) && Records(t) == Written(s, m.jobId, FileNameOf(m.filePath), st)) &&
      (st == "COMPLETED" <==> (RouteOf(m.filePath) != Unsupported && outcome == Success)) &&
      t.extractionQueue == (if outcome == Success || RouteOf(m.filePath) == Unsupported
                            then s.extractionQueue - multiset{m} else s.extractionQueue) &&
      t.extractionPermits == s.extractionPermits + 1
  {
    var name := FileNameOf(m.filePath);
    var route := RouteOf(m.filePath);
    if route == Unsupported {
      UnsupportedRun(s, m, name);
    } else if outcome == Success {
      SuccessRun(s, m, name);
    } else if route == Textract && outcome == FailInside {
      FailInsideRun(s, m, name);
    } else if route == Textract {
      Run1(s, ReleasePermit);
    } else {
      Run2(s, ExtendVisibility, ReleasePermit);
    }
  }

  /** The unsupported path: delete, write FAILED, roll up, release. */
  lemma UnsupportedRun(s: State, m: ExtractionMessage, name: string)
    ensures var t := Run(s, [DeleteMessage(m), UpdateFile(m.jobId, name, "FAILED"), UpdateJob(m.jobId), ReleasePermit]);
      Records(t) == Written(s, m.jobId, name, "FAILED") &&
      t.extractionQueue == s.extractionQueue - multiset{m} && t.extractionPermits == s.extractionPermits + 1
  {
    Run4(s, DeleteMessage(m), UpdateFile(m.jobId, name, "FAILED"), UpdateJob(m.jobId), ReleasePermit);
  }

  /** A success path: write COMPLETED, roll up, delete, release. */
  lemma SuccessRun(s: State, m: ExtractionMessage, name: string)
    ensures var t := Run(s, [ExtendVisibility, UpdateFile(m.jobId, name, "COMPLETED"), UpdateJob(m.jobId), DeleteMessage(m), ReleasePermit]);
      Records(t) == Written(s, m.jobId, name, "COMPLETED") &&
      t.extractionQueue == s.extractionQueue - multiset{m} && t.extractionPermits == s.extractionPermits + 1
  {
    Run5(s, ExtendVisibility, UpdateFile(m.jobId, name, "COMPLETED"), UpdateJob(m.jobId), DeleteMessage(m), ReleasePermit);
  }

  /** A Textract failure inside the guarded block: write FAILED, roll up, release; the message stays. */
  lemma FailInsideRun(s: State, m: ExtractionMessage, name: string)
    ensures var t := Run(s, [ExtendVisibility, UpdateFile(m.jobId, name, "FAILED"), UpdateJob(m.jobId), ReleasePermit]);
      Records(t) == Written(s, m.jobId, name, "FAILED") &&
      t.extractionQueue == s.extractionQueue && t.extractionPermits == s.extractionPermits + 1
  {
    Run4(s, ExtendVisibility, UpdateFile(m.jobId, name, "FAILED"), UpdateJob(m.jobId), ReleasePermit);
  }

  /** The permit is given back exactly once, as the last step of every path. */
  lemma ReleasedOnce(m: ExtractionMessage, outcome: Outcome)
    ensures var plan := Plan(m, outcome);
      |plan| > 0 && plan[|plan| - 1] == ReleasePermit &&
      forall i :: 0 <= i < |plan| - 1 ==> !plan[i].ReleasePermit?
  {
  }

  // ---------------------------------------------------------------------
  // Redelivery and crashes.
  // ---------------------------------------------------------------------

  lemma SetFileStatusIdempotent(files: map<(string, string), ExtractionJobFile>, key: (string, string), status: string)
    ensures SetFileStatus(SetFileStatus(files, key, status), key, status) == SetFileStatus(files, key, status)
  {
  }

  /** A run of quiet commands changes no record. */
  lemma {:induction false} QuietRun(s: State, cs: seq<Command>)
    requires forall i :: 0 <= i < |cs| ==> Quiet(cs[i])
    ensures Records(Run(s, cs)) == Records(s)
    decreases |cs|
  {
    if cs != [] {
      var s1 := Step(s, cs[0]);
      assert Run(s, cs) == Run(s1, cs[1..]);
      assert Quiet(cs[0]);
      StepRecords(s, cs[0]);
      assert forall i :: 0 <= i < |cs[1..]| ==> cs[1..][i] == cs[i + 1];
      QuietRun(s1, cs[1..]);
    }
  }

  /** The plans that write: their second step sets the file status, their third rolls the job up, the rest are quiet. */
  predicate Writes(plan: seq<Command>, jobId: string, fileName: string, status: string)
  {
    |plan| >= 3 && plan[1] == UpdateFile(jobId, fileName, status) && plan[2] == UpdateJob(jobId) &&
    forall i :: 0 <= i < |plan| && i != 1 && i != 2 ==> Quiet(plan[i])
  }

  lemma WritingPlans(m: ExtractionMessage, outcome: Outcome)
    ensures WrittenStatus(m, outcome) != "" ==> Writes(Plan(m, outcome), m.jobId, FileNameOf(m.filePath), WrittenStatus(m, outcome))
    ensures WrittenStatus(m, outcome) == "" ==> forall i :: 0 <= i < |Plan(m, outcome)| ==> Quiet(Plan(m, outcome)[i])
  {
  }

  /** How one command changes the extraction records. */
  lemma StepRecords(t: State, c: Command)
    ensures Quiet(c) ==> Records(Step(t, c)) == Records(t)
    ensures c.UpdateFile? ==> Records(Step(t, c)) == (t.extractionJobs, SetFileStatus(t.extractionFiles, (c.jobId, c.fileName), c.status))
    ensures c.UpdateJob? ==> Records(Step(t, c)) == (RollupIn(t.extractionJobs, c.jobId, t.extractionFiles), t.extractionFiles)
  {
  }

  /** The records after the first k steps of a writing plan: untouched, file written, or file and job written. */
  lemma {:induction false} WritingPrefix(s: State, plan: seq<Command>, jobId: string, fileName: string, status: string, k: nat)
    requires Writes(plan, jobId, fileName, status) && k <= |plan|
    ensures var files1 := SetFileStatus(s.extractionFiles, (jobId, fileName), status);
      Records(Run(s, plan[..k])) ==
        if k <= 1 then Records(s)
        else if k == 2 then (s.extractionJobs, files1)
        else (RollupIn(s.extractionJobs, jobId, files1), files1)
    decreases k
  {
    PrefixStates(s, plan, k);
    if k > 0 {
      var prev := Run(s, plan[..k - 1]);
      var c := plan[k - 1];
      assert Run(s, plan[..k]) == Step(prev, c);
      WritingPrefix(s, plan, jobId, fileName, status, k - 1);
      StepRecords(prev, c);
      if k - 1 != 1 && k - 1 != 2 {
        assert Quiet(c);
      }
    }
  }

  /** Writing a file status and rolling up again over records that already hold some of that write changes nothing more. */
  lemma WrittenAgain(s: State, mid: State, jobId: string, fileName: string, status: string)
    requires var files1 := SetFileStatus(s.extractionFiles, (jobId, fileName), status);
      Records(mid) == Records(s) || Records(mid) == (s.extractionJobs, files1) ||
      Records(mid) == (RollupIn(s.extractionJobs, jobId, files1), files1)
    ensures Written(mid, jobId, fileName, status) == Written(s, jobId, fileName, status)
  {
    var key := (jobId, fileName);
    var files1 := SetFileStatus(s.extractionFiles, key, status);
    var jobs1 := RollupIn(s.extractionJobs, jobId, files1);
    SetFileStatusIdempotent(s.extractionFiles, key, status);
    if Records(mid) == (jobs1, files1) && jobId in s.extractionJobs {
      RollupIdempotent(jobId, s.extractionJobs[jobId], files1);
      assert jobs1[jobId := Rollup(jobId, jobs1[jobId], files1)] == jobs1;
    }
  }

  /**
   * At-least-once delivery is harmless to the extraction records: a handler that stops after
   * any number k of its steps (a crash; k = the whole plan is a completed run) followed by a
   * full redelivery of the same message leaves the same records as one clean run.
   */
  lemma RedeliveryIdempotent(s: State, m: ExtractionMessage, outcome: Outcome, k: nat)
    requires k <= |Plan(m, outcome)|
    ensures Records(Run(Run(s, Plan(m, outcome)[..k]), Plan(m, outcome))) == Records(Run(s, Plan(m, outcome)))
  {
    if WrittenStatus(m, outcome) != "" {
      RedeliveryWriting(s, m, outcome, k);
    } else {
      RedeliveryQuiet(s, m, outcome, k);
    }
  }

  /** Redelivery when the handler writes a file status: both runs end with the same write. */
  lemma RedeliveryWriting(s: State, m: ExtractionMessage, outcome: Outcome, k: nat)
    requires k <= |Plan(m, outcome)| && WrittenStatus(m, outcome) != ""
    ensures Records(Run(Run(s, Plan(m, outcome)[..k]), Plan(m, outcome))) == Records(Run(s, Plan(m, outcome)))
  {
    var plan := Plan(m, outcome);
    var mid := Run(s, plan[..k]);
    var st := WrittenStatus(m, outcome);
    var name := FileNameOf(m.filePath);
    PlanEffect(s, m, outcome);
    PlanEffect(mid, m, outcome);
    WritingPlans(m, outcome);
    WritingPrefix(s, plan, m.jobId, name, st, k);
    WrittenAgain(s, mid, m.jobId, name, st);
  }

  /** Redelivery when the handler writes nothing: neither run touches the records. */
  lemma RedeliveryQuiet(s: State, m: ExtractionMessage, outcome: Outcome, k: nat)
    requires k <= |Plan(m, outcome)| && WrittenStatus(m, outcome) == ""
    ensures Records(Run(Run(s, Plan(m, outcome)[..k]), Plan(m, outcome))) == Records(Run(s, Plan(m, outcome)))
  {
    var plan := Plan(m, outcome);
    var mid := Run(s, plan[..k]);
    PlanEffect(s, m, outcome);
    PlanEffect(mid, m, outcome);
    WritingPlans(m, outcome);
    assert forall i :: 0 <= i < |plan[..k]| ==> plan[..k][i] == plan[i];
    QuietRun(s, plan[..k]);
  }

  lemma PrefixStates(s: State, plan: seq<Command>, k: nat)
    requires k <= |plan|
    ensures k == 0 ==> Run(s, plan[..k]) == s
    ensures k > 0 ==> Run(s, plan[..k]) == Step(Run(s, plan[..k - 1]), plan[k - 1])
  {
    if k > 0 {
      assert plan[..k] == plan[..k - 1] + [plan[k - 1]];
      RunSnoc(s, plan[..k - 1], plan[k - 1]);
    }
  }

  /** A run without a delete leaves the queue as it was. */
  lemma {:induction false} NoDeleteRun(s: State, cs: seq<Command>)
    requires forall i :: 0 <= i < |cs| ==> !cs[i].DeleteMessage?
    ensures Run(s, cs).extractionQueue == s.extractionQueue
    decreases |cs|
  {
    if cs != [] {
      var s1 := Step(s, cs[0]);
      assert Run(s, cs) == Run(s1, cs[1..]);
      StepKeepsQueue(s, cs[0]);
      assert forall i :: 0 <= i < |cs[1..]| ==> cs[1..][i] == cs[i + 1];
      NoDeleteRun(s1, cs[1..]);
    }
  }

  /** Only a delete changes the queue. */
  lemma StepKeepsQueue(s: State, c: Command)
    requires !c.DeleteMessage?
    ensures Step(s, c).extractionQueue == s.extractionQueue
  {
    match c
    case ExtendVisibility =>
    case UpdateFile(_, _, _) =>
    case UpdateJob(_) =>
    case ReleasePermit =>
  }

  /** On both success paths a crash before the delete leaves the message queued, so it will be redelivered. */
  lemma CrashBeforeDeleteKeepsMessage(s: State, m: ExtractionMessage, k: nat)
    requires RouteOf(m.filePath) != Unsupported && k <= 3
    ensures Run(s, Plan(m, Success)[..k]).extractionQueue == s.extractionQueue
  {
    var plan := Plan(m, Success);
    assert forall i :: 0 <= i < |plan[..k]| ==> plan[..k][i] == plan[i] && !plan[i].DeleteMessage?;
    NoDeleteRun(s, plan[..k]);
  }

  /** On the unsupported path a crash right after the delete loses the FAILED write: the message is gone and no record changed. */
  lemma UnsupportedCrashAfterDelete(s: State, m: ExtractionMessage, outcome: Outcome)
    requires RouteOf(m.filePath) == Unsupported
    ensures var t := Run(s, Plan(m, outcome)[..1]);
      Records(t) == Records(s) && t.extractionQueue == s.extractionQueue - multiset{m}
  {
    PrefixStates(s, Plan(m, outcome), 1);
    PrefixStates(s, Plan(m, outcome), 0);
  }

  // ---------------------------------------------------------------------
  // The job/file invariant.
  // ---------------------------------------------------------------------

  /** A job's stored counters equal the counts of its file records, and it is terminal exactly when all of them are done. */
  predicate JobConsistent(job: ExtractionJob, files: map<(string, string), ExtractionJobFile>, jobId: string)
  {
    job.totalFileCount == |FilesOf(files, jobId)| &&
    job.completedFileCount == |FilesWithStatus(files, jobId, "COMPLETED")| &&
    job.failedFileCount == |FilesWithStatus(files, jobId, "FAILED")| &&
    (TerminalStatus(job.status) <==> AllFilesDone(files, jobId))
  }

  /** Every job that has left CREATED is consistent with its file records. */
  predicate Consistent(jobs: map<string, ExtractionJob>, files: map<(string, string), ExtractionJobFile>)
  {
    forall j :: j in jobs && jobs[j].status != "CREATED" ==> JobConsistent(jobs[j], files, j)
  }

  /** In a consistent store the counters of a started job never exceed its file count. */
  lemma ConsistentCountsBounded(jobs: map<string, ExtractionJob>, files: map<(string, string), ExtractionJobFile>, jobId: string)
    requires Consistent(jobs, files) && jobId in jobs && jobs[jobId].status != "CREATED"
    ensures jobs[jobId].completedFileCount + jobs[jobId].failedFileCount <= jobs[jobId].totalFileCount
    ensures TerminalStatus(jobs[jobId].status) <==>
            jobs[jobId].completedFileCount + jobs[jobId].failedFileCount == jobs[jobId].totalFileCount
  {
    StatusCountsBounded(files, jobId);
  }

  /** Setting a file's status touches no other job's counts. */
  lemma OtherJobUntouched(files: map<(string, string), ExtractionJobFile>, key: (string, string), status: string, jobId: string)
    requires key.0 != jobId
    ensures var files1 := SetFileStatus(files, key, status);
      FilesWithStatus(files1, jobId, "COMPLETED") == FilesWithStatus(files, jobId, "COMPLETED") &&
      FilesWithStatus(files1, jobId, "FAILED") == FilesWithStatus(files, jobId, "FAILED") &&
      (AllFilesDone(files1, jobId) <==> AllFilesDone(files, jobId))
  {
  }

  /** Marking a file done never undoes "all files done". */
  lemma DoneStaysDone(files: map<(string, string), ExtractionJobFile>, key: (string, string), status: string, jobId: string)
    requires FileDone(status) && AllFilesDone(files, jobId)
    ensures AllFilesDone(SetFileStatus(files, key, status), jobId)
  {
  }

  /** Writing a done status and rolling the job up keeps the store consistent, provided the job is not still CREATED. */
  lemma WrittenPreserves(s: State, jobId: string, fileName: string, status: string)
    requires FileDone(status) && Consistent(s.extractionJobs, s.extractionFiles)
    requires jobId !in s.extractionJobs || s.extractionJobs[jobId].status != "CREATED"
    ensures Consistent(Written(s, jobId, fileName, status).0, Written(s, jobId, fileName, status).1)
  {
    var key := (jobId, fileName);
    var files := s.extractionFiles;
    var files1 := SetFileStatus(files, key, status);
    var jobs1 := RollupIn(s.extractionJobs, jobId, files1);
    forall j | j in jobs1 && jobs1[j].status != "CREATED"
      ensures JobConsistent(jobs1[j], files1, j)
    {
      if j == jobId {
        var job := s.extractionJobs[j];
        RollupSettles(j, job, files1);
        if AllFilesDone(files, j) {
          DoneStaysDone(files, key, status, j);
        }
      } else {
        OtherJobUntouched(files, key, status, j);
      }
    }
  }

  /**
   * Handling any message, with any outcome, keeps the store consistent as long as the
   * message's job has been started (or does not exist).
   */
  lemma PlanPreservesConsistency(s: State, m: ExtractionMessage, outcome: Outcome)
    requires Consistent(s.extractionJobs, s.extractionFiles)
    requires m.jobId !in s.extractionJobs || s.extractionJobs[m.jobId].status != "CREATED"
    ensures var t := Run(s, Plan(m, outcome)); Consistent(t.extractionJobs, t.extractionFiles)
  {
    PlanEffect(s, m, outcome);
    var st := WrittenStatus(m, outcome);
    if st != "" {
      WrittenPreserves(s, m.jobId, FileNameOf(m.filePath), st);
    }
  }
}
