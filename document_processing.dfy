/**
 * The document-processing service's admission routes: creating an extraction
 * job, registering its files, starting it (one queue message per file), and
 * creating a chunking job whose files are queued by a background task.  Each
 * route checks its request in the source's order and either answers with an
 * HTTP error and changes nothing, or changes the store as the pure function
 * beside it says.
 */
module DocumentProcessing {
  import Text
  import opened Wrappers
  import opened DocumentModels
  import opened Store
  import EW = ExtractionWorker

  /** The extensions register_file admits, compared after lower-casing. */
  const AllowedFileTypes: set<string> := {"pdf", "txt", "md", "html", "json", "jsonl", "png", "jpg", "jpeg", "tiff"}

  /** xs lists every element of s exactly once. */
  ghost predicate Enumerates<T(!new)>(xs: seq<T>, s: set<T>)
  {
    |xs| == |s| && forall x :: x in xs <==> x in s
  }

  /** Lists a set in some order, as a query lists the items it finds. */
  method Enumerate<T(==,!new)>(s: set<T>) returns (xs: seq<T>)
    ensures Enumerates(xs, s)
  {
    xs := [];
    var rest := s;
    while rest != {}
      invariant forall x :: x in s <==> x in xs || x in rest
      invariant forall x :: x in xs ==> x !in rest
      invariant |xs| + |rest| == |s|
      decreases |rest|
    {
      var x :| x in rest;
      xs := xs + [x];
      rest := rest - {x};
    }
  }

  // ---------------------------------------------------------------------
  // create_extraction_job
  // ---------------------------------------------------------------------

  /** The store after create_extraction_job saved a new CREATED job with every counter 0. */
  function Created(s: State, appId: string, jobId: string): State
  {
    s.(extractionJobs := s.extractionJobs[jobId := NewExtractionJob(jobId, appId, 0)])
  }

  /** create_extraction_job: jobId is the fresh uuid the job model draws. */
  method CreateExtractionJob(p: Platform, appId: string, jobId: string) returns (extractionJobId: string, status: string)
    modifies p
    ensures extractionJobId == jobId && status == "CREATED"
    ensures p.Snapshot() == Created(old(p.Snapshot()), appId, jobId)
  {
    var job := NewExtractionJob(jobId, appId, 0);
    p.extractionJobs := p.extractionJobs[jobId := job];
    extractionJobId, status := jobId, "CREATED";
  }

  // ---------------------------------------------------------------------
  // register_file
  // ---------------------------------------------------------------------

  const BadCharsDetail: string :=
    "Invalid file name. Following characters are not allowed in the file name: <space> & $ @ = ; / : + , ? \\ { } ^ ] \" > [ ~ < # | %"

  /** A character of AvoidChars occurs in the name. */
  predicate HasAvoidChar(name: string)
  {
    exists i :: 0 <= i < |AvoidChars| && AvoidChars[i] in name
  }

  /** The file-name checks of register_file, in order: empty, extension, forbidden characters. */
  function CheckFileName(name: string): (r: Option<HttpError>)
  {
    if name == "" then Some(HttpError(400, "Invalid file name"))
    else if EW.FileTypeOf(name) !in AllowedFileTypes then
      Some(HttpError(400, "Invalid file type. Supported file types are pdf, txt, md, html, json"))
    else if HasAvoidChar(name) then Some(HttpError(400, BadCharsDetail))
    else None
  }

  /** A name passes exactly when it is non-empty, has an admitted extension and no forbidden character; a failure is always 400. */
  lemma FileNameAccepted(name: string)
    ensures CheckFileName(name).None? <==>
      name != "" && EW.FileTypeOf(name) in AllowedFileTypes && forall c :: c in AvoidChars ==> c !in name
    ensures CheckFileName(name).Some? ==> CheckFileName(name).value.status == 400
  {
    if !HasAvoidChar(name) {
      forall c | c in AvoidChars ensures c !in name {
        var i :| 0 <= i < |AvoidChars| && AvoidChars[i] == c;
      }
    }
  }

  /** The admitted extensions are exactly those the extraction worker can handle. */
  lemma AllowedTypesAreHandled()
    ensures AllowedFileTypes == EW.TextractTypes + EW.DirectTypes
  {
  }

  /**
   * A name that passes the checks and has an extension reaches the extraction worker
   * under its own name and is routed to Textract or to the direct reader.
   */
  lemma AcceptedNameIsHandled(appId: string, jobId: string, name: string)
    requires CheckFileName(name).None? && '.' in name
    ensures '/' !in name
    ensures EW.FileNameOf(FileKeyPath(appId, jobId, name)) == name
    ensures EW.RouteOf(FileKeyPath(appId, jobId, name)) != EW.Unsupported
  {
    FileNameAccepted(name);
    assert '/' in AvoidChars;
    EW.FileNameIsRegistrationKey(appId, jobId, name);
    var prefix := appId + "/" + jobId + "/";
    assert FileKeyPath(appId, jobId, name) == prefix + name;
    EW.FileTypeFollowsName(prefix, name);
  }

  /** The S3 key of a registered file, which is also its file_path. */
  function FileKeyPath(appId: string, jobId: string, fileName: string): string
  {
    appId + "/" + jobId + "/" + fileName
  }

  /** register_file's checks, in order: 404 unknown job, 403 foreign job, 400 job not CREATED, the name checks, 400 duplicate. */
  function RegisterCheck(s: State, appId: string, jobId: string, fileName: string): (r: Option<HttpError>)
    ensures r.Some? ==> r.value.status in {400, 403, 404}
    ensures r.None? ==>
      jobId in s.extractionJobs && s.extractionJobs[jobId].appId == appId &&
      s.extractionJobs[jobId].status == "CREATED" && CheckFileName(fileName).None? && (jobId, fileName) !in s.extractionFiles
  {
    if jobId !in s.extractionJobs then Some(HttpError(404, "Extraction job not found"))
    else if s.extractionJobs[jobId].appId != appId then Some(HttpError(403, "Extraction job does not belong to the app"))
    else if s.extractionJobs[jobId].status != "CREATED" then
      Some(HttpError(400, "Job is already started or completed. Please create a new job."))
    else if CheckFileName(fileName).Some? then CheckFileName(fileName)
    else if (jobId, fileName) in s.extractionFiles then
      Some(HttpError(400, "A file with the same name is already registered for this job"))
    else None
  }

  /** The order of register_file's answers: each error exactly when the earlier checks passed and this one fails. */
  lemma RegisterGate(s: State, appId: string, jobId: string, fileName: string)
    ensures var r := RegisterCheck(s, appId, jobId, fileName);
      (r.Some? && r.value.status == 404 <==> jobId !in s.extractionJobs) &&
      (r.Some? && r.value.status == 403 <==> jobId in s.extractionJobs && s.extractionJobs[jobId].appId != appId) &&
      (r.None? <==> jobId in s.extractionJobs && s.extractionJobs[jobId].appId == appId &&
                    s.extractionJobs[jobId].status == "CREATED" && CheckFileName(fileName).None? &&
                    (jobId, fileName) !in s.extractionFiles)
  {
    FileNameAccepted(fileName);
  }

  /** The store after a successful registration: one PENDING record under (job, name) and the job's total one higher. */
  function Registered(s: State, appId: string, jobId: string, fileName: string, fileId: string): State
    requires jobId in s.extractionJobs
  {
    var job := s.extractionJobs[jobId];
    s.(extractionFiles := s.extractionFiles[(jobId, fileName) := NewExtractionJobFile(jobId, fileName, FileKeyPath(appId, jobId, fileName), fileId)],
       extractionJobs := s.extractionJobs[jobId := job.(totalFileCount := job.totalFileCount + 1)])
  }

  /** A successful registration adds exactly one file to the job, PENDING, and counts it. */
  lemma RegisterAddsOne(s: State, appId: string, jobId: string, fileName: string, fileId: string)
    requires RegisterCheck(s, appId, jobId, fileName).None?
    ensures var t := Registered(s, appId, jobId, fileName, fileId);
      EW.FilesOf(t.extractionFiles, jobId) == EW.FilesOf(s.extractionFiles, jobId) + {(jobId, fileName)} &&
      |EW.FilesOf(t.extractionFiles, jobId)| == |EW.FilesOf(s.extractionFiles, jobId)| + 1 &&
      t.extractionJobs[jobId].totalFileCount == s.extractionJobs[jobId].totalFileCount + 1 &&
      t.extractionFiles[(jobId, fileName)].status == "PENDING" &&
      (forall j :: j != jobId ==> EW.FilesOf(t.extractionFiles, j) == EW.FilesOf(s.extractionFiles, j))
  {
    var t := Registered(s, appId, jobId, fileName, fileId);
    var k := (jobId, fileName);
    var v := t.extractionFiles[k];
    assert t.extractionFiles == s.extractionFiles[k := v];
    forall j
      ensures EW.FilesOf(t.extractionFiles, j) == if j == jobId then EW.FilesOf(s.extractionFiles, j) + {k} else EW.FilesOf(s.extractionFiles, j)
    {
      FilesOfInsert(s.extractionFiles, k, v, j);
    }
    assert k !in EW.FilesOf(s.extractionFiles, jobId);
  }

  /** Adding a file record adds its key to its own job's files and to no other job's. */
  lemma FilesOfInsert(files: map<(string, string), ExtractionJobFile>, k: (string, string), v: ExtractionJobFile, j: string)
    ensures EW.FilesOf(files[k := v], j) == if k.0 == j then EW.FilesOf(files, j) + {k} else EW.FilesOf(files, j)
  {
  }

  /** What register_file answers on success; the presigned upload URL is not part of the model. */
  datatype RegisterResponse = RegisterResponse(extractionJobId: string, fileName: string, fileId: string)

  /** register_file: fileId is the fresh id the route draws. */
  method RegisterFile(p: Platform, appId: string, jobId: string, fileName: string, fileId: string)
    returns (r: Result<RegisterResponse, HttpError>)
    modifies p`extractionFiles, p`extractionJobs
    ensures var c := RegisterCheck(old(p.Snapshot()), appId, jobId, fileName);
      (c.Some? ==> r == Err(c.value) && p.Snapshot() == old(p.Snapshot())) &&
      (c.None? ==> r == Ok(RegisterResponse(jobId, fileName, fileId)) &&
                   p.Snapshot() == Registered(old(p.Snapshot()), appId, jobId, fileName, fileId))
  {
    var check := RegisterCheck(p.Snapshot(), appId, jobId, fileName);
    if check.Some? {
      return Err(check.value);
    }
    var job := p.extractionJobs[jobId];
    var fileKey := FileKeyPath(appId, jobId, fileName);
    p.extractionFiles := p.extractionFiles[(jobId, fileName) := NewExtractionJobFile(jobId, fileName, fileKey, fileId)];
    job := job.(totalFileCount := job.totalFileCount + 1);
    p.extractionJobs := p.extractionJobs[jobId := job];
    r := Ok(RegisterResponse(jobId, fileName, fileId));
  }

  // ---------------------------------------------------------------------
  // add_file_to_queue and start_extraction_job
  // ---------------------------------------------------------------------

  /** The store after add_file_to_queue: the message is sent, then the record (when found) becomes QUEUED. */
  function FileQueued(s: State, filePath: string, jobId: string, fileName: string, appId: string): State
  {
    s.(extractionQueue := s.extractionQueue + multiset{ExtractionMessage(filePath, jobId, appId)},
       extractionFiles := EW.SetFileStatus(s.extractionFiles, (jobId, fileName), "QUEUED"))
  }

  /** add_file_to_queue: sends the message first, so a missing record gives 404 after the message is already queued. */
  method AddFileToQueue(p: Platform, filePath: string, jobId: string, fileName: string, appId: string)
    returns (r: Option<HttpError>)
    modifies p
    ensures p.Snapshot() == FileQueued(old(p.Snapshot()), filePath, jobId, fileName, appId)
    ensures r.None? <==> (jobId, fileName) in old(p.extractionFiles)
    ensures r.Some? ==> r.value == HttpError(404, "File not found")
  {
    p.extractionQueue := p.extractionQueue + multiset{ExtractionMessage(filePath, jobId, appId)};
    if (jobId, fileName) in p.extractionFiles {
      var f := p.extractionFiles[(jobId, fileName)];
      p.extractionFiles := p.extractionFiles[(jobId, fileName) := f.(status := "QUEUED")];
      r := None;
    } else {
      r := Some(HttpError(404, "File not found"));
    }
  }

  /** The file paths of the listed records that are not in the source bucket, in listing order. */
  function NotUploaded(files: map<(string, string), ExtractionJobFile>, listed: seq<(string, string)>, uploaded: set<string>): (r: seq<string>)
    ensures forall x :: x in r <==> exists k :: k in listed && k in files && files[k].filePath == x && x !in uploaded
    decreases |listed|
  {
    if listed == [] then []
    else
      var k := listed[0];
      var rest := NotUploaded(files, listed[1..], uploaded);
      assert forall k' :: k' in listed <==> k' == k || k' in listed[1..];
      (if k in files && files[k].filePath !in uploaded then [files[k].filePath] else []) + rest
  }

  /** The detail of the "not uploaded" 400: the paths joined by ", ". */
  function NotUploadedDetail(paths: seq<string>): string
  {
    "Files not uploaded: " + Text.JoinBy(paths, ", ")
  }

  /**
   * start_extraction_job's checks, in order, over the job's files as the query lists them:
   * 404, 403, 400 not CREATED, 400 naming the files not uploaded, 400 no files.
   */
  function StartCheck(s: State, appId: string, jobId: string, uploaded: set<string>, listed: seq<(string, string)>): (r: Option<HttpError>)
    ensures r.Some? ==> r.value.status in {400, 403, 404}
    ensures r.None? ==>
      jobId in s.extractionJobs && s.extractionJobs[jobId].appId == appId &&
      s.extractionJobs[jobId].status == "CREATED" && listed != [] &&
      forall k :: k in listed && k in s.extractionFiles ==> s.extractionFiles[k].filePath in uploaded
  {
    if jobId !in s.extractionJobs then Some(HttpError(404, "Extraction job not found"))
    else if s.extractionJobs[jobId].appId != appId then Some(HttpError(403, "Extraction job does not belong to the app"))
    else if s.extractionJobs[jobId].status != "CREATED" then
      Some(HttpError(400, "Job is either already started or completed. Please create a new job."))
    else if NotUploaded(s.extractionFiles, listed, uploaded) != [] then
      Some(HttpError(400, NotUploadedDetail(NotUploaded(s.extractionFiles, listed, uploaded))))
    else if listed == [] then
      Some(HttpError(400, "No files registered for the job. Please register and upload files before starting the job."))
    else None
  }

  /**
   * The upload check runs before the empty check: a job with no files at all always gets the
   * "no files" answer, a job with a file missing from the bucket gets the 400 naming exactly
   * those files, and a start succeeds only with files, all uploaded.
   */
  lemma StartGate(s: State, appId: string, jobId: string, uploaded: set<string>, listed: seq<(string, string)>)
    requires Enumerates(listed, EW.FilesOf(s.extractionFiles, jobId))
    ensures var r := StartCheck(s, appId, jobId, uploaded, listed);
      (r.None? <==> jobId in s.extractionJobs && s.extractionJobs[jobId].appId == appId &&
                    s.extractionJobs[jobId].status == "CREATED" && EW.FilesOf(s.extractionFiles, jobId) != {} &&
                    forall k :: k in EW.FilesOf(s.extractionFiles, jobId) ==> s.extractionFiles[k].filePath in uploaded) &&
      ((jobId in s.extractionJobs && s.extractionJobs[jobId].appId == appId && s.extractionJobs[jobId].status == "CREATED" &&
        EW.FilesOf(s.extractionFiles, jobId) == {}) ==> r == Some(HttpError(400, "No files registered for the job. Please register and upload files before starting the job."))) &&
      ((jobId in s.extractionJobs && s.extractionJobs[jobId].appId == appId && s.extractionJobs[jobId].status == "CREATED" &&
        exists k :: k in EW.FilesOf(s.extractionFiles, jobId) && s.extractionFiles[k].filePath !in uploaded) ==>
        r == Some(HttpError(400, NotUploadedDetail(NotUploaded(s.extractionFiles, listed, uploaded)))))
  {
    var missing := NotUploaded(s.extractionFiles, listed, uploaded);
    assert forall k :: k in listed <==> k in s.extractionFiles && k.0 == jobId;
    if missing != [] {
      var x := missing[0];
      assert x in missing;
    }
    if listed == [] {
      assert EW.FilesOf(s.extractionFiles, jobId) == {};
    } else {
      assert listed[0] in EW.FilesOf(s.extractionFiles, jobId);
    }
    if exists k :: k in EW.FilesOf(s.extractionFiles, jobId) && s.extractionFiles[k].filePath !in uploaded {
      var k :| k in EW.FilesOf(s.extractionFiles, jobId) && s.extractionFiles[k].filePath !in uploaded;
      assert s.extractionFiles[k].filePath in missing;
    }
  }

  /** The file table after setting each listed record to QUEUED, in order. */
  function QueueFiles(files: map<(string, string), ExtractionJobFile>, keys: seq<(string, string)>): (r: map<(string, string), ExtractionJobFile>)
    ensures r.Keys == files.Keys
  {
    if keys == [] then files else EW.SetFileStatus(QueueFiles(files, keys[..|keys| - 1]), keys[|keys| - 1], "QUEUED")
  }

  /** The messages start_extraction_job sends, one per listed file, in order. */
  function StartMessages(files: map<(string, string), ExtractionJobFile>, keys: seq<(string, string)>, jobId: string, appId: string): (r: seq<ExtractionMessage>)
    requires forall k :: k in keys ==> k in files
    ensures |r| == |keys|
  {
    if keys == [] then []
    else StartMessages(files, keys[..|keys| - 1], jobId, appId) + [ExtractionMessage(files[keys[|keys| - 1]].filePath, jobId, appId)]
  }

  /** The store after a successful start over the files listed in `sent`. */
  function Started(s: State, appId: string, jobId: string, sent: seq<(string, string)>): State
    requires jobId in s.extractionJobs && forall k :: k in sent ==> k in s.extractionFiles
  {
    var job := s.extractionJobs[jobId];
    s.(extractionQueue := s.extractionQueue + multiset(StartMessages(s.extractionFiles, sent, jobId, appId)),
       extractionFiles := QueueFiles(s.extractionFiles, sent),
       extractionJobs := s.extractionJobs[jobId := job.(status := "STARTED", totalFileCount := |sent|, queuedFiles := |sent|)])
  }

  /** Queuing every file of a job sets exactly that job's records to QUEUED and leaves the rest as they were. */
  lemma {:induction false} QueueFilesEffect(files: map<(string, string), ExtractionJobFile>, keys: seq<(string, string)>)
    ensures forall k :: k in files ==>
      QueueFiles(files, keys)[k] == (if k in keys then files[k].(status := "QUEUED") else files[k])
    decreases |keys|
  {
    if keys != [] {
      var init := keys[..|keys| - 1];
      QueueFilesEffect(files, init);
      assert forall k :: k in keys <==> k in init || k == keys[|keys| - 1];
    }
  }

  /** One more listed file queues its record and sends its message. */
  lemma QueueStep(files: map<(string, string), ExtractionJobFile>, order: seq<(string, string)>, i: int, jobId: string, appId: string,
                  q: multiset<ExtractionMessage>)
    requires forall k :: k in order ==> k in files && k.0 == jobId
    requires 0 <= i < |order|
    ensures (jobId, order[i].1) == order[i]
    ensures QueueFiles(files, order[..i + 1]) == EW.SetFileStatus(QueueFiles(files, order[..i]), order[i], "QUEUED")
    ensures q + multiset(StartMessages(files, order[..i + 1], jobId, appId)) ==
            q + multiset(StartMessages(files, order[..i], jobId, appId)) + multiset{ExtractionMessage(files[order[i]].filePath, jobId, appId)}
  {
    assert order[i] in order;
    assert order[..i + 1][..i] == order[..i];
    var m := ExtractionMessage(files[order[i]].filePath, jobId, appId);
    assert StartMessages(files, order[..i + 1], jobId, appId) == StartMessages(files, order[..i], jobId, appId) + [m];
    Enqueue(q, StartMessages(files, order[..i], jobId, appId), m);
  }

  /** The loop of start_extraction_job: add_file_to_queue for each listed file of the job, in order. */
  method QueueJobFiles(p: Platform, jobId: string, appId: string, order: seq<(string, string)>)
    requires forall k :: k in order ==> k in p.extractionFiles && k.0 == jobId
    modifies p
    ensures p.Snapshot() == old(p.Snapshot()).(
      extractionFiles := QueueFiles(old(p.extractionFiles), order),
      extractionQueue := old(p.extractionQueue) + multiset(StartMessages(old(p.extractionFiles), order, jobId, appId)))
  {
    ghost var s0 := p.Snapshot();
    var files0 := p.extractionFiles;
    var i := 0;
    while i < |order|
      invariant 0 <= i <= |order|
      invariant p.extractionFiles == QueueFiles(files0, order[..i])
      invariant p.extractionQueue == s0.extractionQueue + multiset(StartMessages(files0, order[..i], jobId, appId))
      invariant p.Snapshot() == s0.(extractionFiles := p.extractionFiles, extractionQueue := p.extractionQueue)
    {
      var k := order[i];
      QueueStep(files0, order, i, jobId, appId, s0.extractionQueue);
      // the record was listed by the query, so add_file_to_queue finds it
      var _ := AddFileToQueue(p, files0[k].filePath, jobId, k.1, appId);
      i := i + 1;
    }
    assert order[..|order|] == order;
  }

  /** start_extraction_job: `uploaded` is the set of keys present in the source bucket. */
  method StartExtractionJob(p: Platform, appId: string, jobId: string, uploaded: set<string>)
    returns (r: Result<int, HttpError>, listed: seq<(string, string)>)
    modifies p
    ensures Enumerates(listed, EW.FilesOf(old(p.extractionFiles), jobId))
    ensures var c := StartCheck(old(p.Snapshot()), appId, jobId, uploaded, listed);
      (c.Some? ==> r == Err(c.value) && p.Snapshot() == old(p.Snapshot())) &&
      (c.None? ==> r == Ok(|listed|) && p.Snapshot() == Started(old(p.Snapshot()), appId, jobId, listed))
  {
    listed := Enumerate(EW.FilesOf(p.extractionFiles, jobId));
    var check := StartCheck(p.Snapshot(), appId, jobId, uploaded, listed);
    if check.Some? {
      return Err(check.value), listed;
    }
    var job := p.extractionJobs[jobId];
    QueueJobFiles(p, jobId, appId, listed);
    job := job.(status := "STARTED", totalFileCount := |listed|, queuedFiles := |listed|);
    p.extractionJobs := p.extractionJobs[jobId := job];
    r := Ok(|listed|);
  }

  // ---------------------------------------------------------------------
  // get_completed_files, check_chunking_job_exists, create_chunking_job
  // ---------------------------------------------------------------------

  /** The names of the job's COMPLETED file records. */
  function CompletedFileNames(files: map<(string, string), ExtractionJobFile>, jobId: string): set<string>
  {
    set k | k in files && k.0 == jobId && files[k].status == "COMPLETED" :: k.1
  }

  lemma {:induction false} NamesOfOneJob(keys: set<(string, string)>, jobId: string)
    requires forall k :: k in keys ==> k.0 == jobId
    ensures |set k | k in keys :: k.1| == |keys|
    decreases |keys|
  {
    if keys != {} {
      var x :| x in keys;
      var rest := keys - {x};
      NamesOfOneJob(rest, jobId);
      assert (set k | k in keys :: k.1) == (set k | k in rest :: k.1) + {x.1};
      forall y | y in rest ensures y.1 != x.1 {
        assert y != x && y.0 == x.0;
      }
    }
  }

  /** get_completed_files lists one name per COMPLETED record of the job: its count is the number of such records. */
  lemma CompletedFilesCount(files: map<(string, string), ExtractionJobFile>, jobId: string)
    ensures |CompletedFileNames(files, jobId)| == |EW.FilesWithStatus(files, jobId, "COMPLETED")|
    ensures forall n :: n in CompletedFileNames(files, jobId) <==> (jobId, n) in files && files[(jobId, n)].status == "COMPLETED"
  {
    var c := EW.FilesWithStatus(files, jobId, "COMPLETED");
    assert CompletedFileNames(files, jobId) == set k | k in c :: k.1;
    NamesOfOneJob(c, jobId);
    forall n | n in CompletedFileNames(files, jobId)
      ensures (jobId, n) in files && files[(jobId, n)].status == "COMPLETED"
    {
      var k :| k in files && k.0 == jobId && files[k].status == "COMPLETED" && k.1 == n;
      assert k == (jobId, n);
    }
  }

  /** check_chunking_job_exists: some chunking job of this extraction job still waits for queue allocation. */
  predicate ChunkingJobWaiting(s: State, extractionJobId: string)
  {
    exists c :: c in s.chunkingJobs && s.chunkingJobs[c].extractionJobId == extractionJobId &&
                s.chunkingJobs[c].status == "WAITING_QUEUE_ALLOCATION"
  }

  /** create_chunking_job's checks, in order: 404, 403, 400 a waiting chunking job, 400 extraction not finished successfully. */
  function ChunkingCheck(s: State, appId: string, extractionJobId: string): (r: Option<HttpError>)
    ensures r.Some? ==> r.value.status in {400, 403, 404}
    ensures r.None? ==>
      extractionJobId in s.extractionJobs && s.extractionJobs[extractionJobId].appId == appId &&
      s.extractionJobs[extractionJobId].status in {"COMPLETED", "COMPLETED_WITH_ERRORS"} && !ChunkingJobWaiting(s, extractionJobId)
  {
    if extractionJobId !in s.extractionJobs then Some(HttpError(404, "Extraction job not found"))
    else if s.extractionJobs[extractionJobId].appId != appId then
      Some(HttpError(403, "Extraction job does not belong to the app"))
    else if ChunkingJobWaiting(s, extractionJobId) then
      Some(HttpError(400, "A chunking job with status 'WAITING_QUEUE_ALLOCATION' already exists"))
    else if s.extractionJobs[extractionJobId].status !in {"COMPLETED", "COMPLETED_WITH_ERRORS"} then
      Some(HttpError(400, "Extraction job is not in COMPLETED or COMPLETED_WITH_ERRORS state"))
    else None
  }

  /** A chunking job is admitted only for an own extraction job that finished with some success and has no waiting chunking job; a FAILED one is refused. */
  lemma ChunkingGate(s: State, appId: string, extractionJobId: string)
    ensures var r := ChunkingCheck(s, appId, extractionJobId);
      (r.None? <==> extractionJobId in s.extractionJobs && s.extractionJobs[extractionJobId].appId == appId &&
                    !ChunkingJobWaiting(s, extractionJobId) &&
                    (s.extractionJobs[extractionJobId].status == "COMPLETED" ||
                     s.extractionJobs[extractionJobId].status == "COMPLETED_WITH_ERRORS")) &&
      (r.Some? ==> r.value.status in {400, 403, 404})
  {
  }

  /** Python's repr of an optional integer. */
  function OptionalIntText(v: Option<int>): string
  {
    if v.None? then "None" else Text.IntText(v.value)
  }

  /** The chunking_params column: str() of the parameter dictionary, or '' without parameters. */
  function ParamsText(params: Option<ChunkingParams>): string
  {
    if params.None? then ""
    else "{'chunk_size': " + OptionalIntText(params.value.chunkSize) +
         ", 'chunk_overlap': " + OptionalIntText(params.value.chunkOverlap) + "}"
  }

  /** The chunking job create_chunking_job saves. */
  function NewChunkingJob(chunkingJobId: string, extractionJobId: string, appId: string, strategy: ChunkingStrategy,
                          params: Option<ChunkingParams>, totalFileCount: int): (j: ChunkingJob)
    ensures j.status == "WAITING_QUEUE_ALLOCATION" && j.totalFileCount == totalFileCount
    ensures j.queuedFiles == 0 && j.completedFiles == 0 && j.failedFiles == 0
    ensures ParseStrategy(j.chunkingStrategy) == Some(strategy)
  {
    ChunkingJob(chunkingJobId, extractionJobId, appId, "WAITING_QUEUE_ALLOCATION", StrategyName(strategy),
                ParamsText(params), totalFileCount, 0, 0, 0)
  }

  /**
   * create_chunking_job: chunkingJobId is the fresh uuid the job model draws.  The
   * returned names are handed to the background task AddFilesToQueueForChunking.
   */
  method CreateChunkingJob(p: Platform, appId: string, extractionJobId: string, strategy: ChunkingStrategy,
                           params: Option<ChunkingParams>, chunkingJobId: string)
    returns (r: Result<ChunkingJob, HttpError>, fileNames: seq<string>)
    modifies p
    ensures var c := ChunkingCheck(old(p.Snapshot()), appId, extractionJobId);
      (c.Some? ==> r == Err(c.value) && p.Snapshot() == old(p.Snapshot())) &&
      (c.None? ==> Enumerates(fileNames, CompletedFileNames(old(p.extractionFiles), extractionJobId)) &&
                   r == Ok(NewChunkingJob(chunkingJobId, extractionJobId, appId, strategy, params, |fileNames|)) &&
                   p.Snapshot() == old(p.Snapshot()).(chunkingJobs := old(p.chunkingJobs)[chunkingJobId := r.value]))
  {
    fileNames := [];
    var check := ChunkingCheck(p.Snapshot(), appId, extractionJobId);
    if check.Some? {
      return Err(check.value), fileNames;
    }
    fileNames := Enumerate(CompletedFileNames(p.extractionFiles, extractionJobId));
    var job := NewChunkingJob(chunkingJobId, extractionJobId, appId, strategy, params, |fileNames|);
    p.chunkingJobs := p.chunkingJobs[chunkingJobId := job];
    r := Ok(job);
  }

  // ---------------------------------------------------------------------
  // add_files_to_sqs_for_chunking
  // ---------------------------------------------------------------------

  /** Where the chunking worker will write the chunks of one file. */
  function ChunkFilePath(appId: string, extractionJobId: string, fileName: string, chunkingJobId: string): string
  {
    appId + "/" + extractionJobId + "/" + fileName + "/chunk_" + chunkingJobId + ".json"
  }

  /** The extracted text a chunking message points the worker at. */
  function ExtractedTextPath(appId: string, extractionJobId: string, fileName: string): string
  {
    appId + "/" + extractionJobId + "/" + fileName + "/extracted_text.json"
  }

  /** The QUEUED chunk-file record saved for one file; ids holds (chunk_job_file_id, file_id). */
  function ChunkFileRecord(chunkingJobId: string, extractionJobId: string, appId: string, fileName: string, ids: (string, string)): ChunkingJobFile
  {
    ChunkingJobFile(ids.0, chunkingJobId, appId, fileName, ChunkFilePath(appId, extractionJobId, fileName, chunkingJobId), ids.1, "QUEUED")
  }

  /** The message sent for one file. */
  function ChunkMessage(chunkingJobId: string, extractionJobId: string, strategy: ChunkingStrategy, params: Option<ChunkingParams>,
                        appId: string, fileName: string, chunkJobFileId: string): ChunkingMessage
  {
    ChunkingMessage(chunkingJobId, extractionJobId, StrategyName(strategy), ParamsDict(params), appId, fileName,
                    ExtractedTextPath(appId, extractionJobId, fileName), chunkJobFileId)
  }

  function ChunkFileRecords(chunkingJobId: string, extractionJobId: string, appId: string, fileNames: seq<string>, ids: seq<(string, string)>): (r: seq<ChunkingJobFile>)
    requires |ids| == |fileNames|
    ensures |r| == |fileNames|
  {
    seq(|fileNames|, i requires 0 <= i < |fileNames| => ChunkFileRecord(chunkingJobId, extractionJobId, appId, fileNames[i], ids[i]))
  }

  function ChunkMessages(chunkingJobId: string, extractionJobId: string, strategy: ChunkingStrategy, params: Option<ChunkingParams>,
                         appId: string, fileNames: seq<string>, ids: seq<(string, string)>): (r: seq<ChunkingMessage>)
    requires |ids| == |fileNames|
    ensures |r| == |fileNames|
  {
    seq(|fileNames|, i requires 0 <= i < |fileNames| =>
      ChunkMessage(chunkingJobId, extractionJobId, strategy, params, appId, fileNames[i], ids[i].0))
  }

  /** The chunk-file table after saving the records in order (a later save under the same id replaces an earlier one). */
  function SaveChunkFiles(files: map<string, ChunkingJobFile>, records: seq<ChunkingJobFile>): (r: map<string, ChunkingJobFile>)
    ensures r.Keys == files.Keys + set x | x in records :: x.chunkJobFileId
  {
    if records == [] then files
    else SaveChunkFiles(files, records[..|records| - 1])[records[|records| - 1].chunkJobFileId := records[|records| - 1]]
  }

  /** With distinct ids every saved record can be read back under its id, and nothing else changes. */
  lemma {:induction false} SavedChunkFilesFound(files: map<string, ChunkingJobFile>, records: seq<ChunkingJobFile>)
    requires forall i, j :: 0 <= i < j < |records| ==> records[i].chunkJobFileId != records[j].chunkJobFileId
    ensures forall i :: 0 <= i < |records| ==>
      records[i].chunkJobFileId in SaveChunkFiles(files, records) && SaveChunkFiles(files, records)[records[i].chunkJobFileId] == records[i]
    ensures forall id :: id in files && (forall i :: 0 <= i < |records| ==> records[i].chunkJobFileId != id) ==>
      id in SaveChunkFiles(files, records) && SaveChunkFiles(files, records)[id] == files[id]
    decreases |records|
  {
    if records != [] {
      var init := records[..|records| - 1];
      var last := records[|records| - 1];
      assert forall i :: 0 <= i < |init| ==> init[i] == records[i];
      SavedChunkFilesFound(files, init);
      var before := SaveChunkFiles(files, init);
      var after := SaveChunkFiles(files, records);
      assert after == before[last.chunkJobFileId := last];
      forall i | 0 <= i < |records|
        ensures records[i].chunkJobFileId in after && after[records[i].chunkJobFileId] == records[i]
      {
        if i < |records| - 1 {
          assert records[i] == init[i];
          assert records[i].chunkJobFileId != last.chunkJobFileId;
        }
      }
    }
  }

  /** One more file saves its record and sends its message. */
  lemma SaveSendStep(files: map<string, ChunkingJobFile>, records: seq<ChunkingJobFile>,
                     q: multiset<ChunkingMessage>, messages: seq<ChunkingMessage>, i: int)
    requires 0 <= i < |records| && i < |messages|
    ensures SaveChunkFiles(files, records[..i + 1]) == SaveChunkFiles(files, records[..i])[records[i].chunkJobFileId := records[i]]
    ensures q + multiset(messages[..i + 1]) == q + multiset(messages[..i]) + multiset{messages[i]}
  {
    assert records[..i + 1][..i] == records[..i];
    assert messages[..i + 1] == messages[..i] + [messages[i]];
    Enqueue(q, messages[..i], messages[i]);
  }

  /** The loop of add_files_to_sqs_for_chunking: save each file's record, then send its message. */
  method SaveAndSendChunkFiles(p: Platform, chunkingJobId: string, extractionJobId: string, strategy: ChunkingStrategy,
                               params: Option<ChunkingParams>, appId: string, fileNames: seq<string>, ids: seq<(string, string)>)
    requires |ids| == |fileNames|
    modifies p`chunkingFiles, p`chunkingQueue
    ensures p.Snapshot() == old(p.Snapshot()).(
      chunkingFiles := SaveChunkFiles(old(p.chunkingFiles), ChunkFileRecords(chunkingJobId, extractionJobId, appId, fileNames, ids)),
      chunkingQueue := old(p.chunkingQueue) + multiset(ChunkMessages(chunkingJobId, extractionJobId, strategy, params, appId, fileNames, ids)))
  {
    ghost var records := ChunkFileRecords(chunkingJobId, extractionJobId, appId, fileNames, ids);
    ghost var messages := ChunkMessages(chunkingJobId, extractionJobId, strategy, params, appId, fileNames, ids);
    ghost var s0 := p.Snapshot();
    var i := 0;
    while i < |fileNames|
      invariant 0 <= i <= |fileNames|
      invariant p.chunkingFiles == SaveChunkFiles(s0.chunkingFiles, records[..i])
      invariant p.chunkingQueue == s0.chunkingQueue + multiset(messages[..i])
    {
      var record := ChunkFileRecord(chunkingJobId, extractionJobId, appId, fileNames[i], ids[i]);
      var message := ChunkMessage(chunkingJobId, extractionJobId, strategy, params, appId, fileNames[i], ids[i].0);
      assert record == records[i] && message == messages[i];
      SaveSendStep(s0.chunkingFiles, records, s0.chunkingQueue, messages, i);
      p.chunkingFiles := p.chunkingFiles[record.chunkJobFileId := record];
      p.chunkingQueue := p.chunkingQueue + multiset{message};
      i := i + 1;
    }
    assert records[..|fileNames|] == records;
    assert messages[..|fileNames|] == messages;
  }

  /**
   * add_files_to_sqs_for_chunking, the background task: per file it saves the QUEUED record
   * and then sends the message; afterwards the job becomes QUEUED with one queued file per
   * name.  A missing job raises 404, which the blanket handler turns into 500, after every
   * record and message was already written.  ids are the fresh id pairs drawn per file.
   */
  method AddFilesToQueueForChunking(p: Platform, chunkingJobId: string, extractionJobId: string, strategy: ChunkingStrategy,
                                    params: Option<ChunkingParams>, appId: string, fileNames: seq<string>, ids: seq<(string, string)>)
    returns (r: Option<HttpError>)
    requires |ids| == |fileNames|
    modifies p
    ensures p.chunkingFiles == SaveChunkFiles(old(p.chunkingFiles), ChunkFileRecords(chunkingJobId, extractionJobId, appId, fileNames, ids))
    ensures p.chunkingQueue == old(p.chunkingQueue) + multiset(ChunkMessages(chunkingJobId, extractionJobId, strategy, params, appId, fileNames, ids))
    ensures chunkingJobId in old(p.chunkingJobs) ==>
      r.None? && p.chunkingJobs == old(p.chunkingJobs)[chunkingJobId := old(p.chunkingJobs)[chunkingJobId].(status := "QUEUED", queuedFiles := |fileNames|)]
    ensures chunkingJobId !in old(p.chunkingJobs) ==>
      r == Some(HttpError(500, "Internal Server Error")) && p.chunkingJobs == old(p.chunkingJobs)
    ensures p.Snapshot() == old(p.Snapshot()).(chunkingFiles := p.chunkingFiles, chunkingQueue := p.chunkingQueue, chunkingJobs := p.chunkingJobs)
  {
    SaveAndSendChunkFiles(p, chunkingJobId, extractionJobId, strategy, params, appId, fileNames, ids);
    if chunkingJobId !in p.chunkingJobs {
      return Some(HttpError(500, "Internal Server Error"));
    }
    var job := p.chunkingJobs[chunkingJobId];
    job := job.(status := "QUEUED", queuedFiles := |fileNames|);
    p.chunkingJobs := p.chunkingJobs[chunkingJobId := job];
    r := None;
  }
}
