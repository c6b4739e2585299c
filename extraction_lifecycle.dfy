/**
 * The extraction job's life cycle across the admission routes and the
 * extraction worker.  One invariant, Sound, is kept by every step that can
 * happen: creating a job, registering a file, starting a job, and handling a
 * message taken from the queue (with any outcome, any number of times).  In a
 * sound store every job satisfies completed + failed <= total, and a started
 * job is terminal exactly when all its files are done.
 */
module ExtractionLifecycle {
  import opened DocumentModels
  import opened Store
  import EW = ExtractionWorker
  import DP = DocumentProcessing

  /**
   * Started jobs agree with their files; CREATED jobs have counted every registered file
   * and nothing else; every queued message names a job that has left CREATED (or none).
   */
  predicate Sound(s: State)
  {
    EW.Consistent(s.extractionJobs, s.extractionFiles) &&
    (forall j :: j in s.extractionJobs && s.extractionJobs[j].status == "CREATED" ==>
      s.extractionJobs[j].completedFileCount == 0 && s.extractionJobs[j].failedFileCount == 0 &&
      s.extractionJobs[j].totalFileCount == |EW.FilesOf(s.extractionFiles, j)|) &&
    (forall m :: m in s.extractionQueue ==> m.jobId !in s.extractionJobs || s.extractionJobs[m.jobId].status != "CREATED")
  }

  /** Two file tables hold the same records for job j. */
  ghost predicate AgreeOn(files: map<(string, string), ExtractionJobFile>, files': map<(string, string), ExtractionJobFile>, j: string)
  {
    forall k: (string, string) :: k.0 == j ==> (k in files <==> k in files') && (k in files ==> files[k] == files'[k])
  }

  /** Tables that agree on a job give it the same counts. */
  lemma AgreeOnCounts(files: map<(string, string), ExtractionJobFile>, files': map<(string, string), ExtractionJobFile>, j: string)
    requires AgreeOn(files, files', j)
    ensures EW.FilesOf(files', j) == EW.FilesOf(files, j)
    ensures EW.FilesWithStatus(files', j, "COMPLETED") == EW.FilesWithStatus(files, j, "COMPLETED")
    ensures EW.FilesWithStatus(files', j, "FAILED") == EW.FilesWithStatus(files, j, "FAILED")
    ensures EW.AllFilesDone(files', j) <==> EW.AllFilesDone(files, j)
  {
  }

  /** The empty store is sound. */
  lemma EmptySound(s: State)
    requires s.extractionJobs == map[] && s.extractionQueue == multiset{}
    ensures Sound(s)
  {
  }

  /** In a sound store no job has counted more files than it holds, and a started job is terminal exactly when the counts add up. */
  lemma SoundCountsBounded(s: State, jobId: string)
    requires Sound(s) && jobId in s.extractionJobs
    ensures var job := s.extractionJobs[jobId];
      0 <= job.completedFileCount && 0 <= job.failedFileCount &&
      job.completedFileCount + job.failedFileCount <= job.totalFileCount &&
      (job.status != "CREATED" ==>
        (EW.TerminalStatus(job.status) <==> job.completedFileCount + job.failedFileCount == job.totalFileCount))
  {
    if s.extractionJobs[jobId].status != "CREATED" {
      EW.ConsistentCountsBounded(s.extractionJobs, s.extractionFiles, jobId);
    }
  }

  /** create_extraction_job keeps the store sound when the drawn id is fresh. */
  lemma CreateKeepsSound(s: State, appId: string, jobId: string)
    requires Sound(s)
    requires jobId !in s.extractionJobs && EW.FilesOf(s.extractionFiles, jobId) == {}
    requires forall m :: m in s.extractionQueue ==> m.jobId != jobId
    ensures Sound(DP.Created(s, appId, jobId))
  {
  }

  /** A successful register_file keeps the store sound. */
  lemma RegisterKeepsSound(s: State, appId: string, jobId: string, fileName: string, fileId: string)
    requires Sound(s) && DP.RegisterCheck(s, appId, jobId, fileName).None?
    ensures Sound(DP.Registered(s, appId, jobId, fileName, fileId))
  {
    var t := DP.Registered(s, appId, jobId, fileName, fileId);
    DP.RegisterAddsOne(s, appId, jobId, fileName, fileId);
    RegisteredOthersKept(s, appId, jobId, fileName, fileId);
    assert t.extractionQueue == s.extractionQueue;
    assert t.extractionJobs.Keys == s.extractionJobs.Keys;
  }

  /** Registering a file leaves every other job's record, files and consistency as they were. */
  lemma RegisteredOthersKept(s: State, appId: string, jobId: string, fileName: string, fileId: string)
    requires Sound(s) && DP.RegisterCheck(s, appId, jobId, fileName).None?
    ensures var t := DP.Registered(s, appId, jobId, fileName, fileId);
      forall j :: j in t.extractionJobs && j != jobId ==>
        t.extractionJobs[j] == s.extractionJobs[j] &&
        EW.FilesOf(t.extractionFiles, j) == EW.FilesOf(s.extractionFiles, j) &&
        (t.extractionJobs[j].status != "CREATED" ==> EW.JobConsistent(t.extractionJobs[j], t.extractionFiles, j))
  {
    var t := DP.Registered(s, appId, jobId, fileName, fileId);
    forall j | j in t.extractionJobs && j != jobId
      ensures t.extractionJobs[j] == s.extractionJobs[j]
      ensures EW.FilesOf(t.extractionFiles, j) == EW.FilesOf(s.extractionFiles, j)
      ensures t.extractionJobs[j].status != "CREATED" ==> EW.JobConsistent(t.extractionJobs[j], t.extractionFiles, j)
    {
      assert AgreeOn(s.extractionFiles, t.extractionFiles, j);
      AgreeOnCounts(s.extractionFiles, t.extractionFiles, j);
    }
  }

  /** A successful start_extraction_job keeps the store sound, whatever order the files are listed in. */
  lemma StartKeepsSound(s: State, appId: string, jobId: string, uploaded: set<string>, sent: seq<(string, string)>)
    requires Sound(s) && DP.StartCheck(s, appId, jobId, uploaded, sent).None?
    requires DP.Enumerates(sent, EW.FilesOf(s.extractionFiles, jobId))
    ensures Sound(DP.Started(s, appId, jobId, sent))
  {
    DP.StartGate(s, appId, jobId, uploaded, sent);
    var t := DP.Started(s, appId, jobId, sent);
    StartedJobConsistent(s, appId, jobId, sent);
    StartedOthersKept(s, appId, jobId, sent);
    StartedQueue(s, appId, jobId, sent);
    assert EW.Consistent(t.extractionJobs, t.extractionFiles);
  }

  /** The started job: every file QUEUED, none counted, not all done. */
  lemma StartedJobConsistent(s: State, appId: string, jobId: string, sent: seq<(string, string)>)
    requires Sound(s) && jobId in s.extractionJobs && s.extractionJobs[jobId].status == "CREATED"
    requires EW.FilesOf(s.extractionFiles, jobId) != {}
    requires DP.Enumerates(sent, EW.FilesOf(s.extractionFiles, jobId))
    ensures var t := DP.Started(s, appId, jobId, sent);
      t.extractionJobs[jobId].status == "STARTED" && EW.JobConsistent(t.extractionJobs[jobId], t.extractionFiles, jobId)
  {
    var files := s.extractionFiles;
    var t := DP.Started(s, appId, jobId, sent);
    var files' := t.extractionFiles;
    DP.QueueFilesEffect(files, sent);
    assert forall k :: k in files ==> (k in sent <==> k.0 == jobId);
    assert EW.FilesOf(files', jobId) == EW.FilesOf(files, jobId);
    assert EW.FilesWithStatus(files', jobId, "COMPLETED") == {};
    assert EW.FilesWithStatus(files', jobId, "FAILED") == {};
    var k0 :| k0 in EW.FilesOf(files, jobId);
    assert files'[k0].status == "QUEUED";
    assert !EW.AllFilesDone(files', jobId);
  }

  /** Every other job keeps its record and its files. */
  lemma StartedOthersKept(s: State, appId: string, jobId: string, sent: seq<(string, string)>)
    requires Sound(s) && jobId in s.extractionJobs
    requires DP.Enumerates(sent, EW.FilesOf(s.extractionFiles, jobId))
    ensures var t := DP.Started(s, appId, jobId, sent);
      t.extractionJobs.Keys == s.extractionJobs.Keys &&
      forall j :: j in t.extractionJobs && j != jobId ==>
        t.extractionJobs[j] == s.extractionJobs[j] &&
        EW.FilesOf(t.extractionFiles, j) == EW.FilesOf(s.extractionFiles, j) &&
        (t.extractionJobs[j].status != "CREATED" ==> EW.JobConsistent(t.extractionJobs[j], t.extractionFiles, j))
  {
    var files := s.extractionFiles;
    var t := DP.Started(s, appId, jobId, sent);
    var files' := t.extractionFiles;
    DP.QueueFilesEffect(files, sent);
    assert forall k :: k in files ==> (k in sent <==> k.0 == jobId);
    forall j | j != jobId
      ensures AgreeOn(files, files', j)
    {
    }
    forall j | j in t.extractionJobs && j != jobId
      ensures EW.FilesOf(files', j) == EW.FilesOf(files, j)
      ensures t.extractionJobs[j].status != "CREATED" ==> EW.JobConsistent(t.extractionJobs[j], files', j)
    {
      AgreeOnCounts(files, files', j);
    }
  }

  /** Every queued message, old or new, names a job that has left CREATED. */
  lemma StartedQueue(s: State, appId: string, jobId: string, sent: seq<(string, string)>)
    requires Sound(s) && jobId in s.extractionJobs
    requires DP.Enumerates(sent, EW.FilesOf(s.extractionFiles, jobId))
    ensures var t := DP.Started(s, appId, jobId, sent);
      forall m :: m in t.extractionQueue ==> m.jobId !in t.extractionJobs || t.extractionJobs[m.jobId].status != "CREATED"
  {
    var files := s.extractionFiles;
    var t := DP.Started(s, appId, jobId, sent);
    forall m | m in t.extractionQueue
      ensures m.jobId !in t.extractionJobs || t.extractionJobs[m.jobId].status != "CREATED"
    {
      if m !in s.extractionQueue {
        assert m in DP.StartMessages(files, sent, jobId, appId);
        StartMessagesName(files, sent, jobId, appId);
      }
    }
  }

  lemma {:induction false} StartMessagesName(files: map<(string, string), ExtractionJobFile>, keys: seq<(string, string)>, jobId: string, appId: string)
    requires forall k :: k in keys ==> k in files
    ensures forall m :: m in DP.StartMessages(files, keys, jobId, appId) ==> m.jobId == jobId
    decreases |keys|
  {
    if keys != [] {
      StartMessagesName(files, keys[..|keys| - 1], jobId, appId);
    }
  }

  /**
   * Handling a message taken from the queue keeps the store sound, for every outcome of
   * the external work; redeliveries are further messages from the queue, so they do too.
   */
  lemma HandleKeepsSound(s: State, m: ExtractionMessage, outcome: Outcome)
    requires Sound(s) && m in s.extractionQueue
    ensures Sound(EW.Run(s, EW.Plan(m, outcome)))
  {
    var t := EW.Run(s, EW.Plan(m, outcome));
    EW.PlanPreservesConsistency(s, m, outcome);
    HandleKeepsJobs(s, m, outcome);
    EW.PlanEffect(s, m, outcome);
    assert forall x :: x in t.extractionQueue ==> x in s.extractionQueue;
  }

  /** Handling keeps the job table's keys, which jobs are CREATED, their records, and every job's files. */
  lemma HandleKeepsJobs(s: State, m: ExtractionMessage, outcome: Outcome)
    requires Sound(s) && m in s.extractionQueue
    ensures var t := EW.Run(s, EW.Plan(m, outcome));
      t.extractionJobs.Keys == s.extractionJobs.Keys &&
      forall j :: j in t.extractionJobs ==>
        (t.extractionJobs[j].status == "CREATED" <==> s.extractionJobs[j].status == "CREATED") &&
        (s.extractionJobs[j].status == "CREATED" ==> t.extractionJobs[j] == s.extractionJobs[j]) &&
        EW.FilesOf(t.extractionFiles, j) == EW.FilesOf(s.extractionFiles, j)
  {
    EW.PlanEffect(s, m, outcome);
    var st := EW.WrittenStatus(m, outcome);
    if st != "" {
      WrittenKeepsJobs(s, m.jobId, EW.FileNameOf(m.filePath), st);
    }
  }

  /** Writing a done status to a file and rolling its job up keeps the same facts. */
  lemma WrittenKeepsJobs(s: State, jobId: string, fileName: string, st: string)
    requires Sound(s) && EW.FileDone(st)
    requires jobId !in s.extractionJobs || s.extractionJobs[jobId].status != "CREATED"
    ensures var (jobs, files) := EW.Written(s, jobId, fileName, st);
      jobs.Keys == s.extractionJobs.Keys &&
      forall j :: j in jobs ==>
        (jobs[j].status == "CREATED" <==> s.extractionJobs[j].status == "CREATED") &&
        (s.extractionJobs[j].status == "CREATED" ==> jobs[j] == s.extractionJobs[j]) &&
        EW.FilesOf(files, j) == EW.FilesOf(s.extractionFiles, j)
  {
    var (jobs, files) := EW.Written(s, jobId, fileName, st);
    forall j | j in jobs
      ensures jobs[j].status == "CREATED" <==> s.extractionJobs[j].status == "CREATED"
      ensures s.extractionJobs[j].status == "CREATED" ==> jobs[j] == s.extractionJobs[j]
      ensures EW.FilesOf(files, j) == EW.FilesOf(s.extractionFiles, j)
    {
      if j == jobId {
        EW.RollupSettles(j, s.extractionJobs[j], files);
      }
    }
  }

}
