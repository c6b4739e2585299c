/**
 * Records of the document-processing service: extraction jobs and their files,
 * chunking jobs and their files, the chunking strategy and parameters, and the
 * characters a registered file name may not contain.  Statuses are stored as
 * strings, as the source stores them.
 */
module DocumentModels {
  import opened Wrappers

  /** The five statuses an extraction job can be reported in. */
  datatype ExtractionJobStatus = Created | Started | Completed | CompletedWithErrors | Failed

  function StatusName(s: ExtractionJobStatus): string
  {
    match s
    case Created => "CREATED"
    case Started => "STARTED"
    case Completed => "COMPLETED"
    case CompletedWithErrors => "COMPLETED_WITH_ERRORS"
    case Failed => "FAILED"
  }

  /** Reads a stored status string back into the enumeration; None for any other string. */
  function ParseStatus(name: string): (r: Option<ExtractionJobStatus>)
    ensures r.Some? ==> StatusName(r.value) == name
    ensures forall s :: StatusName(s) == name ==> r == Some(s)
  {
    if name == "CREATED" then Some(Created)
    else if name == "STARTED" then Some(Started)
    else if name == "COMPLETED" then Some(Completed)
    else if name == "COMPLETED_WITH_ERRORS" then Some(CompletedWithErrors)
    else if name == "FAILED" then Some(Failed)
    else None
  }

  /** The enumeration has no IN_PROGRESS and no QUEUED member, and its names are pairwise distinct. */
  lemma StatusNamesExact()
    ensures ParseStatus("IN_PROGRESS") == None && ParseStatus("QUEUED") == None
    ensures forall a, b :: StatusName(a) == StatusName(b) ==> a == b
  {
  }

  /** One extraction job: hash key job_id. */
  datatype ExtractionJob = ExtractionJob(
    jobId: string,
    appId: string,
    completedFileCount: int,
    totalFileCount: int,
    failedFileCount: int,
    status: string,
    queuedFiles: int)

  /** A job as the model's defaults build it: CREATED, no completed, failed or queued files. */
  function NewExtractionJob(jobId: string, appId: string, totalFileCount: int): (j: ExtractionJob)
    ensures j.jobId == jobId && j.appId == appId && j.totalFileCount == totalFileCount
    ensures j.status == "CREATED" && ParseStatus(j.status) == Some(Created)
    ensures j.completedFileCount == 0 && j.failedFileCount == 0 && j.queuedFiles == 0
  {
    ExtractionJob(jobId, appId, 0, totalFileCount, 0, "CREATED", 0)
  }

  /** One file of an extraction job: hash key job_id, range key file_name. */
  datatype ExtractionJobFile = ExtractionJobFile(
    jobId: string,
    fileName: string,
    filePath: string,
    fileId: string,
    status: string)

  /** The store key of an extraction file record. */
  function FileKey(f: ExtractionJobFile): (string, string)
  {
    (f.jobId, f.fileName)
  }

  /** A file record as the model's defaults build it: status PENDING. */
  function NewExtractionJobFile(jobId: string, fileName: string, filePath: string, fileId: string): (f: ExtractionJobFile)
    ensures FileKey(f) == (jobId, fileName) && f.filePath == filePath && f.fileId == fileId
    ensures f.status == "PENDING"
  {
    ExtractionJobFile(jobId, fileName, filePath, fileId, "PENDING")
  }

  /** One chunking job: hash key chunking_job_id; its counters are completed_files and failed_files. */
  datatype ChunkingJob = ChunkingJob(
    chunkingJobId: string,
    extractionJobId: string,
    appId: string,
    status: string,
    chunkingStrategy: string,
    chunkingParams: string,
    totalFileCount: int,
    queuedFiles: int,
    completedFiles: int,
    failedFiles: int)

  /** One file of a chunking job: hash key chunk_job_file_id alone. */
  datatype ChunkingJobFile = ChunkingJobFile(
    chunkJobFileId: string,
    chunkingJobId: string,
    appId: string,
    fileName: string,
    filePath: string,
    fileId: string,
    status: string)

  /** The chunking strategies a request may name. */
  datatype ChunkingStrategy = FixedSize | Recursive | Page

  function StrategyName(s: ChunkingStrategy): string
  {
    match s
    case FixedSize => "fixed_size"
    case Recursive => "recursive"
    case Page => "page"
  }

  /** A strategy string is admitted exactly when it is one of the three names. */
  function ParseStrategy(name: string): (r: Option<ChunkingStrategy>)
    ensures r.Some? <==> name in {"fixed_size", "recursive", "page"}
    ensures r.Some? ==> StrategyName(r.value) == name
  {
    if name == "fixed_size" then Some(FixedSize)
    else if name == "recursive" then Some(Recursive)
    else if name == "page" then Some(Page)
    else None
  }

  /** The optional chunking parameters; both fields are always present and default to None. */
  datatype ChunkingParams = ChunkingParams(chunkSize: Option<int>, chunkOverlap: Option<int>)

  /** The parameter dictionary sent in a chunking message: both keys when parameters were given, else empty. */
  function ParamsDict(p: Option<ChunkingParams>): (d: map<string, Option<int>>)
    ensures p.None? ==> d == map[]
    ensures p.Some? ==>
      d.Keys == {"chunk_size", "chunk_overlap"} &&
      d["chunk_size"] == p.value.chunkSize && d["chunk_overlap"] == p.value.chunkOverlap
  {
    if p.None? then map[] else map["chunk_size" := p.value.chunkSize, "chunk_overlap" := p.value.chunkOverlap]
  }

  /** Characters a registered file name may not contain. */
  const AvoidChars: seq<char> := ['&', '$', '@', '=', ';', '/', ':', '+', ' ', ',', '?', '\\', '{', '}', '^', ']', '"', '>', '[', '~', '<', '#', '|', '%']
}
