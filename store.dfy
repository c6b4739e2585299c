/**
 * The shared record store and the three work queues of the document pipeline.
 * Tables are maps keyed as the source keys them; each queue is a multiset of
 * message bodies; each worker holds a permit counter for its semaphore.
 */
module Store {
  import opened Wrappers
  import opened DocumentModels
  import opened VectorModels

  /** Body of an extraction-queue message. */
  datatype ExtractionMessage = ExtractionMessage(filePath: string, jobId: string, appId: string)

  /** Body of a chunking-queue message; chunking_params is the parameter dictionary, values may be null. */
  datatype ChunkingMessage = ChunkingMessage(
    chunkingJobId: string,
    extractionJobId: string,
    chunkingStrategy: string,
    chunkingParams: map<string, Option<int>>,
    appId: string,
    fileName: string,
    filePath: string,
    chunkJobFileId: string)

  /** Body of a vectorization-queue message: a JSON object of string fields, any of which may be absent. */
  datatype VectorMessage = VectorMessage(body: map<string, string>)

  /** What the external work (Textract, S3, Bedrock, OpenSearch) did while a message was handled. */
  datatype Outcome =
    | Success       // every external call returned
    | FailInside    // an external call raised inside the handler's guarded block
    | FailOutside   // an external call raised before the guarded block was entered

  /** A second write to the same key replaces the first. */
  lemma Overwrite<K, V>(m: map<K, V>, k: K, a: V, b: V)
    ensures m[k := a][k := b] == m[k := b]
  {
  }

  /** Sending one more message adds it to the queue. */
  lemma Enqueue<T>(q: multiset<T>, sent: seq<T>, m: T)
    ensures q + multiset(sent + [m]) == q + multiset(sent) + multiset{m}
  {
  }

  /** An abstract snapshot of everything the pipeline stores. */
  datatype State = State(
    extractionJobs: map<string, ExtractionJob>,
    extractionFiles: map<(string, string), ExtractionJobFile>,
    chunkingJobs: map<string, ChunkingJob>,
    chunkingFiles: map<string, ChunkingJobFile>,
    vectorJobs: map<string, VectorizationJob>,
    vectorFiles: map<string, VectorizationJobFile>,
    vectorStores: map<(string, string), VectorStore>,
    vectorIndexes: map<string, VectorIndex>,
    extractionQueue: multiset<ExtractionMessage>,
    chunkingQueue: multiset<ChunkingMessage>,
    vectorQueue: multiset<VectorMessage>,
    resultObjects: set<string>,
    extractionPermits: int,
    chunkingPermits: int,
    vectorPermits: int)

  /** The tables, queues and semaphores the services share. */
  class Platform {
    var extractionJobs: map<string, ExtractionJob>
    var extractionFiles: map<(string, string), ExtractionJobFile>
    var chunkingJobs: map<string, ChunkingJob>
    var chunkingFiles: map<string, ChunkingJobFile>
    var vectorJobs: map<string, VectorizationJob>
    var vectorFiles: map<string, VectorizationJobFile>
    var vectorStores: map<(string, string), VectorStore>
    var vectorIndexes: map<string, VectorIndex>
    var extractionQueue: multiset<ExtractionMessage>
    var chunkingQueue: multiset<ChunkingMessage>
    var vectorQueue: multiset<VectorMessage>
    var resultObjects: set<string>
    var extractionPermits: int
    var chunkingPermits: int
    var vectorPermits: int

    function Snapshot(): State
      reads this
    {
      State(extractionJobs, extractionFiles, chunkingJobs, chunkingFiles, vectorJobs, vectorFiles,
            vectorStores, vectorIndexes, extractionQueue, chunkingQueue, vectorQueue, resultObjects,
            extractionPermits, chunkingPermits, vectorPermits)
    }

    /** An empty store with every worker's semaphore holding maxConcurrentTasks permits. */
    constructor (maxConcurrentTasks: int)
      ensures Snapshot() == State(map[], map[], map[], map[], map[], map[], map[], map[],
                                  multiset{}, multiset{}, multiset{}, {},
                                  maxConcurrentTasks, maxConcurrentTasks, maxConcurrentTasks)
    {
      extractionJobs, extractionFiles := map[], map[];
      chunkingJobs, chunkingFiles := map[], map[];
      vectorJobs, vectorFiles := map[], map[];
      vectorStores, vectorIndexes := map[], map[];
      extractionQueue, chunkingQueue, vectorQueue := multiset{}, multiset{}, multiset{};
      resultObjects := {};
      extractionPermits, chunkingPermits, vectorPermits := maxConcurrentTasks, maxConcurrentTasks, maxConcurrentTasks;
    }
  }
}
