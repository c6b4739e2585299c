/**
 * The vectorization worker: one handled vectorization message becomes an
 * ordered list of commands on the store.  Its job update increments a counter
 * and re-evaluates the status, so a redelivered message is counted twice, and
 * its failure path addresses the job by the message's app_id.
 */
module VectorJobProcess {
  import opened VectorModels
  import opened Store
  import EW = ExtractionWorker

  const MaxConcurrentTasks: int := 10
  const VisibilityTimeout: int := 600

  /** The message body holds every key handle_vectorization reads with a plain index. */
  predicate WellFormed(m: VectorMessage)
  {
    "file_path" in m.body && "app_id" in m.body && "index_id" in m.body && "index_name" in m.body &&
    "host" in m.body && "file_id" in m.body && "vectorize_job_id" in m.body
  }

  /** One step of the handler, in the order the handler performs it. */
  datatype Command =
    | ExtendVisibility
    | DeleteMessage(m: VectorMessage)
    | UpdateFile(fileId: string, status: string)
    | UpdateJob(jobId: string, status: string)
    | ReleasePermit

  /**
   * update_job_entry on an existing job: add one to the counter the status names (no counter
   * for any other status), then settle the status when the counters add up to the total and
   * set IN_PROGRESS otherwise.
   */
  function Increment(job: VectorizationJob, status: string): (r: VectorizationJob)
    ensures r.completedFileCount == job.completedFileCount + (if status == "COMPLETED" then 1 else 0)
    ensures r.failedFileCount == job.failedFileCount + (if status == "FAILED" then 1 else 0)
    ensures r.totalFileCount == job.totalFileCount && r.queuedFiles == job.queuedFiles
    ensures r.status == "IN_PROGRESS" <==> r.completedFileCount + r.failedFileCount != r.totalFileCount
  {
    var failed := job.failedFileCount + (if status == "FAILED" then 1 else 0);
    var completed := job.completedFileCount + (if status == "COMPLETED" then 1 else 0);
    var settled := if failed + completed == job.totalFileCount then EW.FinalStatus(completed, failed) else "IN_PROGRESS";
    job.(failedFileCount := failed, completedFileCount := completed, status := settled)
  }

  /** The effect of one command on the store; a missing record is only logged. */
  function Step(s: State, c: Command): State
  {
    match c
    case ExtendVisibility => s
    case DeleteMessage(m) => s.(vectorQueue := s.vectorQueue - multiset{m})
    case UpdateFile(fileId, status) =>
      if fileId in s.vectorFiles then s.(vectorFiles := s.vectorFiles[fileId := s.vectorFiles[fileId].(status := status)]) else s
    case UpdateJob(jobId, status) =>
      if jobId in s.vectorJobs then s.(vectorJobs := s.vectorJobs[jobId := Increment(s.vectorJobs[jobId], status)]) else s
    case ReleasePermit => s.(vectorPermits := s.vectorPermits + 1)
  }

  /** The effect of a list of commands, first to last. */
  function Run(s: State, cs: seq<Command>): State
    decreases |cs|
  {
    if cs == [] then s else Run(Step(s, cs[0]), cs[1..])
  }

  /**
   * The commands handle_vectorization issues for message m.  A missing key raises before the
   * inner try, so only the finally clause runs; a failure reading or embedding the chunks
   * (before the delete) marks the file FAILED and updates the job named by app_id.
   */
  function Plan(m: VectorMessage, outcome: Outcome): seq<Command>
  {
    if !WellFormed(m) then [ReleasePermit]
    else
      var fileId := m.body["file_id"];
      if outcome == Success then
        [ExtendVisibility, DeleteMessage(m), UpdateFile(fileId, "COMPLETED"), UpdateJob(m.body["vectorize_job_id"], "COMPLETED"), ReleasePermit]
      else
        [ExtendVisibility, UpdateFile(fileId, "FAILED"), UpdateJob(m.body["app_id"], "FAILED"), ReleasePermit]
  }

  // ---------------------------------------------------------------------
  // The handler over the shared platform.
  // ---------------------------------------------------------------------

  /** update_job_file_entry */
  method UpdateJobFileEntry(p: Platform, fileId: string, status: string)
    modifies p
    ensures p.Snapshot() == Step(old(p.Snapshot()), UpdateFile(fileId, status))
  {
    if fileId in p.vectorFiles {
      var f := p.vectorFiles[fileId];
      p.vectorFiles := p.vectorFiles[fileId := f.(status := status)];
    }
  }

  /** update_job_entry: increments the named counter in place and rewrites the status. */
  method UpdateJobEntry(p: Platform, jobId: string, status: string)
    modifies p
    ensures p.Snapshot() == Step(old(p.Snapshot()), UpdateJob(jobId, status))
  {
    if jobId in p.vectorJobs {
      var job := p.vectorJobs[jobId];
      if status == "FAILED" {
        job := job.(failedFileCount := job.failedFileCount + 1);
      }
      if status == "COMPLETED" {
        job := job.(completedFileCount := job.completedFileCount + 1);
      }
      if job.failedFileCount + job.completedFileCount == job.totalFileCount {
        if job.failedFileCount > 0 && job.completedFileCount > 0 {
          job := job.(status := "COMPLETED_WITH_ERRORS");
        } else if job.failedFileCount > 0 {
          job := job.(status := "FAILED");
        } else {
          job := job.(status := "COMPLETED");
        }
      } else {
        job := job.(status := "IN_PROGRESS");
      }
      p.vectorJobs := p.vectorJobs[jobId := job];
    }
  }

  /** Deletes one copy of the message from the vectorization queue. */
  method DeleteVectorMessage(p: Platform, m: VectorMessage)
    modifies p
    ensures p.Snapshot() == Step(old(p.Snapshot()), DeleteMessage(m))
  {
    p.vectorQueue := p.vectorQueue - multiset{m};
  }

  /** The finally clause: gives the semaphore permit back. */
  method Release(p: Platform)
    modifies p
    ensures p.Snapshot() == Step(old(p.Snapshot()), ReleasePermit)
  {
    p.vectorPermits := p.vectorPermits + 1;
  }

  /** handle_vectorization: reads the message keys, embeds the chunks, deletes the message, then writes the statuses. */
  method HandleVectorization(p: Platform, m: VectorMessage, outcome: Outcome)
    modifies p
    ensures p.Snapshot() == Run(old(p.Snapshot()), Plan(m, outcome))
  {
    ghost var target := Run(p.Snapshot(), Plan(m, outcome));
    ghost var rest := Plan(m, outcome);   // the commands still to perform
    if !WellFormed(m) {
      // KeyError: raised before the inner try; only the finally clause runs
      Release(p);
      rest := rest[1..];
      assert rest == [];
      return;
    }
    var fileId := m.body["file_id"];
    // extend_visibility_timeout catches every error and changes no record
    rest := rest[1..];
    assert Run(p.Snapshot(), rest) == target;
    if outcome == Success {
      DeleteVectorMessage(p, m);
      rest := rest[1..];
      assert Run(p.Snapshot(), rest) == target;
      UpdateJobFileEntry(p, fileId, "COMPLETED");
      rest := rest[1..];
      assert Run(p.Snapshot(), rest) == target;
      UpdateJobEntry(p, m.body["vectorize_job_id"], "COMPLETED");
      rest := rest[1..];
      assert Run(p.Snapshot(), rest) == target;
    } else {
      UpdateJobFileEntry(p, fileId, "FAILED");
      rest := rest[1..];
      assert Run(p.Snapshot(), rest) == target;
      UpdateJobEntry(p, m.body["app_id"], "FAILED");
      rest := rest[1..];
      assert Run(p.Snapshot(), rest) == target;
    }
    Release(p);
    rest := rest[1..];
    assert Run(p.Snapshot(), rest) == target;
    assert rest == [];
  }

  // ---------------------------------------------------------------------
  // Properties of the increment rollup.
  // ---------------------------------------------------------------------

  /**
   * Once the counters add up to the total the status is the three-way terminal status;
   * any status argument other than COMPLETED or FAILED changes no counter.
   */
  lemma IncrementSettles(job: VectorizationJob, status: string)
    ensures var r := Increment(job, status);
      (r.completedFileCount + r.failedFileCount == r.totalFileCount ==>
        EW.TerminalStatus(r.status) && r.status == EW.FinalStatus(r.completedFileCount, r.failedFileCount)) &&
      (status != "COMPLETED" && status != "FAILED" ==>
        r.completedFileCount == job.completedFileCount && r.failedFileCount == job.failedFileCount)
  {
  }

  /** The status is re-evaluated from the counters alone: repeating an update with a status that counts nothing changes nothing more. */
  lemma IncrementNeutralIdempotent(job: VectorizationJob, status: string)
    requires status != "COMPLETED" && status != "FAILED"
    ensures Increment(Increment(job, status), status) == Increment(job, status)
  {
  }

  // ---------------------------------------------------------------------
  // What one handled message does to the store.
  // ---------------------------------------------------------------------

  lemma Run1(s: State, a: Command)
    ensures Run(s, [a]) == Step(s, a)
  {
    assert [a][1..] == [];
  }

  lemma Run2(s: State, a: Command, b: Command)
    ensures Run(s, [a, b]) == Step(Step(s, a), b)
  {
    assert [a, b][1..] == [b];
    Run1(Step(s, a), b);
  }

  lemma Run3(s: State, a: Command, b: Command, c: Command)
    ensures Run(s, [a, b, c]) == Step(Step(Step(s, a), b), c)
  {
    assert [a, b, c][1..] == [b, c];
    Run2(Step(s, a), b, c);
  }

  lemma Run4(s: State, a: Command, b: Command, c: Command, d: Command)
    ensures Run(s, [a, b, c, d]) == Step(Step(Step(Step(s, a), b), c), d)
  {
    assert [a, b, c, d][1..] == [b, c, d];
    Run3(Step(s, a), b, c, d);
  }

  lemma Run5(s: State, a: Command, b: Command, c: Command, d: Command, e: Command)
    ensures Run(s, [a, b, c, d, e]) == Step(Step(Step(Step(Step(s, a), b), c), d), e)
  {
    assert [a, b, c, d, e][1..] == [b, c, d, e];
    Run4(Step(s, a), b, c, d, e);
  }

  /** The file table after setting one record's status (when the record exists). */
  function FileWritten(files: map<string, VectorizationJobFile>, fileId: string, status: string): map<string, VectorizationJobFile>
  {
    if fileId in files then files[fileId := files[fileId].(status := status)] else files
  }

  /** The job table after update_job_entry (when the job exists). */
  function JobWritten(jobs: map<string, VectorizationJob>, jobId: string, status: string): map<string, VectorizationJob>
  {
    if jobId in jobs then jobs[jobId := Increment(jobs[jobId], status)] else jobs
  }

  /** update_job_file_entry and update_job_entry as store updates. */
  lemma StepWrites(s: State, fileId: string, jobId: string, status: string)
    ensures Step(s, UpdateFile(fileId, status)) == s.(vectorFiles := FileWritten(s.vectorFiles, fileId, status))
    ensures Step(s, UpdateJob(jobId, status)) == s.(vectorJobs := JobWritten(s.vectorJobs, jobId, status))
  {
  }

  /**
   * The store after handling m.  A message missing a key only gives the permit back.
   * On success the message is deleted and then the file is COMPLETED and its job counts one
   * more completed file; on failure the message stays, the file is FAILED and the job whose
   * id is the message's app_id (if any) counts one more failure.
   */
  lemma PlanEffect(s: State, m: VectorMessage, outcome: Outcome)
    ensures var t := Run(s, Plan(m, outcome));
      t.vectorPermits == s.vectorPermits + 1 &&
      (!WellFormed(m) ==> t == s.(vectorPermits := s.vectorPermits + 1)) &&
      (WellFormed(m) && outcome == Success ==>
        t == s.(vectorQueue := s.vectorQueue - multiset{m},
                vectorFiles := FileWritten(s.vectorFiles, m.body["file_id"], "COMPLETED"),
                vectorJobs := JobWritten(s.vectorJobs, m.body["vectorize_job_id"], "COMPLETED"),
                vectorPermits := s.vectorPermits + 1)) &&
      (WellFormed(m) && outcome != Success ==>
        t == s.(vectorFiles := FileWritten(s.vectorFiles, m.body["file_id"], "FAILED"),
                vectorJobs := JobWritten(s.vectorJobs, m.body["app_id"], "FAILED"),
                vectorPermits := s.vectorPermits + 1))
  {
    if !WellFormed(m) {
      Run1(s, ReleasePermit);
    } else if outcome == Success {
      var fileId, jobId := m.body["file_id"], m.body["vectorize_job_id"];
      Run5(s, ExtendVisibility, DeleteMessage(m), UpdateFile(fileId, "COMPLETED"), UpdateJob(jobId, "COMPLETED"), ReleasePermit);
      var s1 := s.(vectorQueue := s.vectorQueue - multiset{m});
      assert Step(Step(s, ExtendVisibility), DeleteMessage(m)) == s1;
      StepWrites(s1, fileId, jobId, "COMPLETED");
      var s2 := s1.(vectorFiles := FileWritten(s.vectorFiles, fileId, "COMPLETED"));
      StepWrites(s2, fileId, jobId, "COMPLETED");
    } else {
      var fileId, jobId := m.body["file_id"], m.body["app_id"];
      Run4(s, ExtendVisibility, UpdateFile(fileId, "FAILED"), UpdateJob(jobId, "FAILED"), ReleasePermit);
      StepWrites(s, fileId, jobId, "FAILED");
      var s1 := s.(vectorFiles := FileWritten(s.vectorFiles, fileId, "FAILED"));
      StepWrites(s1, fileId, jobId, "FAILED");
    }
  }

  /** The permit is given back exactly once, as the last step of every path. */
  lemma ReleasedOnce(m: VectorMessage, outcome: Outcome)
    ensures var plan := Plan(m, outcome);
      |plan| > 0 && plan[|plan| - 1] == ReleasePermit &&
      forall i :: 0 <= i < |plan| - 1 ==> !plan[i].ReleasePermit?
  {
  }

  /**
   * The failure path counts the failure on the job named by app_id, so the vectorization job
   * itself is left as it was (its failure is never counted) unless its id equals the app id.
   */
  lemma FailureMissesJob(s: State, m: VectorMessage, outcome: Outcome)
    requires WellFormed(m) && outcome != Success
    requires m.body["vectorize_job_id"] != m.body["app_id"]
    ensures var t := Run(s, Plan(m, outcome)); var jobId := m.body["vectorize_job_id"];
      (jobId in t.vectorJobs <==> jobId in s.vectorJobs) &&
      (jobId in s.vectorJobs ==> t.vectorJobs[jobId] == s.vectorJobs[jobId])
  {
    PlanEffect(s, m, outcome);
  }

  /**
   * The increment is not idempotent: delivering the same successful message twice counts two
   * completions, so a one-file job ends with completed 2 > total 1 and status IN_PROGRESS.
   */
  lemma RedeliveryCountsTwice(s: State, m: VectorMessage)
    requires WellFormed(m) && m.body["vectorize_job_id"] in s.vectorJobs
    ensures var t := Run(Run(s, Plan(m, Success)), Plan(m, Success)); var jobId := m.body["vectorize_job_id"];
      jobId in t.vectorJobs &&
      t.vectorJobs[jobId].completedFileCount == s.vectorJobs[jobId].completedFileCount + 2 &&
      t.vectorJobs[jobId].failedFileCount == s.vectorJobs[jobId].failedFileCount &&
      (s.vectorJobs[jobId].totalFileCount == 1 && s.vectorJobs[jobId].completedFileCount == 0 && s.vectorJobs[jobId].failedFileCount == 0 ==>
        t.vectorJobs[jobId].status == "IN_PROGRESS")
  {
    var mid := Run(s, Plan(m, Success));
    PlanEffect(s, m, Success);
    PlanEffect(mid, m, Success);
  }

  lemma PrefixStates(s: State, plan: seq<Command>, k: nat)
    requires 0 < k <= |plan|
    ensures Run(s, plan[..k]) == Step(Run(s, plan[..k - 1]), plan[k - 1])
  {
    assert plan[..k] == plan[..k - 1] + [plan[k - 1]];
    RunAppend(s, plan[..k - 1], [plan[k - 1]]);
    Run1(Run(s, plan[..k - 1]), plan[k - 1]);
  }

  lemma {:induction false} RunAppend(s: State, xs: seq<Command>, ys: seq<Command>)
    ensures Run(s, xs + ys) == Run(Run(s, xs), ys)
    decreases |xs|
  {
    if xs != [] {
      assert (xs + ys)[0] == xs[0] && (xs + ys)[1..] == xs[1..] + ys;
      RunAppend(Step(s, xs[0]), xs[1..], ys);
    } else {
      assert xs + ys == ys;
    }
  }

  /** The message is deleted before the statuses are written: a crash between the two loses the completion for good. */
  lemma CrashAfterDeleteLosesCompletion(s: State, m: VectorMessage)
    requires WellFormed(m)
    ensures var t := Run(s, Plan(m, Success)[..2]);
      t.vectorQueue == s.vectorQueue - multiset{m} &&
      t.vectorFiles == s.vectorFiles && t.vectorJobs == s.vectorJobs
  {
    var plan := Plan(m, Success);
    assert plan[..0] == [];
    PrefixStates(s, plan, 1);
    PrefixStates(s, plan, 2);
  }
}
