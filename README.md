# Generative AI foundations platform: a Dafny model

This project models the core of the generative-AI foundations platform. The platform is a set of Python services behind an admin backend, used through a client SDK. The model covers:

- **The document pipeline's job bookkeeping.** Extraction, chunking and vectorization jobs each own a set of file records. One queue message is sent per file. Each message's outcome is rolled up into the job's counters and status.
- **Admission** (`DocumentProcessing`, `VectorizationService`). Creating jobs, registering files, starting jobs and queueing files are methods on a shared `Store.Platform` object. That object holds the record tables as maps, the three queues as multisets, and one semaphore permit counter per worker.
- **The three workers** (`ExtractionWorker`, `ChunkingWorker`, `VectorJobProcess`). A handler is a plan: a sequence of store commands chosen from the message and from an `Outcome` parameter standing for the external work (Textract, S3, Bedrock, OpenSearch). A pure `Run` gives the plan its meaning. The imperative handler methods execute the commands in the source's order and are proved equal to `Run`. Redelivery means running a plan twice; a crash means running a prefix of it.
- **The pure pieces around the pipeline.** These are:
  - the extractor's payloads and `<table>` stripping;
  - the page-wise and JSON-lines chunkers;
  - the restoration of index order after parallel embedding;
  - the OpenSearch policy documents and the base32 store ids;
  - prompt-template versioning;
  - the model-invocation request and response layer.
- **The admin backend.** This covers the metric grouping and date conversion, the app-client table, the health page, the OpenAPI merge, and the relay routes with their URL rewriting.
- **The Cognito token managers.** There are three (admin backend, quickstart notebooks, SDK), sharing the `CognitoTokens` exchange and cache rule.
- **The SDK's base service, filename rules, request bodies and folder upload.**

Clocks, uuids, HTTP answers and AWS answers are parameters. Time is whole seconds.

## Model

| member | source | states |
|---|---|---|
| DocumentModels.ParseStatus | services/foundations_document_processing/models.py:12-17 | a stored status string reads back as the enumeration member whose name it is, and as None for any other string |
| DocumentModels.StatusNamesExact | services/foundations_document_processing/models.py:12-17 | the enumeration has no IN_PROGRESS or QUEUED member, and its five names are pairwise distinct |
| DocumentModels.NewExtractionJob | services/foundations_document_processing/models.py:21-31 | a new extraction job is CREATED with completed, failed and queued counts 0; total_file_count is given by the caller |
| DocumentModels.NewExtractionJobFile | services/foundations_document_processing/models.py:40-50 | a file record is keyed by (job_id, file_name) and starts PENDING |
| DocumentModels.ParseStrategy | services/foundations_document_processing/models.py:134-137 | a strategy string is admitted exactly when it is fixed_size, recursive or page, and reads back to that name |
| DocumentModels.ParamsDict | services/foundations_document_processing/app.py:179 | the chunking parameter dictionary carries both chunk_size and chunk_overlap when parameters are given, and nothing otherwise |
| DocumentProcessing.Enumerate | services/foundations_document_processing/app.py:98-101 | a query result lists every matching record exactly once |
| DocumentProcessing.CreateExtractionJob | services/foundations_document_processing/app.py:219-257 | the route returns the fresh job id with status CREATED, and the store gains exactly that job with every counter 0 |
| DocumentProcessing.FileNameAccepted | services/foundations_document_processing/app.py:450-464 | a file name passes exactly when it is non-empty, its lower-cased last '.'-segment is an admitted type, and it holds no forbidden character; every refusal is 400 |
| DocumentProcessing.AllowedTypesAreHandled | services/foundations_document_processing/app.py:456 | the types register_file admits are exactly the Textract types plus the directly read types of the extraction worker |
| DocumentProcessing.AcceptedNameIsHandled | services/foundations_document_processing/app.py:462-473 | an accepted name with an extension has no '/', so the worker reads it back from file_path as the registration key and never routes it to Unsupported |
| DocumentProcessing.RegisterGate | services/foundations_document_processing/app.py:439-473 | register_file answers 404 exactly for an unknown job and 403 exactly for another app's job; it succeeds exactly when the job is CREATED, the name passes and (job, name) is not yet registered |
| DocumentProcessing.RegisterAddsOne | services/foundations_document_processing/app.py:475-491 | a successful registration adds exactly one PENDING file to that job, raises its total_file_count by 1, and leaves other jobs' files alone |
| DocumentProcessing.RegisterFile | services/foundations_document_processing/app.py:393-505 | an error leaves the store unchanged; a success returns the job, name and file id and makes exactly the registration change |
| DocumentProcessing.AddFileToQueue | services/foundations_document_processing/app.py:80-96 | the message is queued whether or not the record exists; the record becomes QUEUED when found, and a missing record gives 404 "File not found" |
| DocumentProcessing.StartGate | services/foundations_document_processing/app.py:548-570 | a start succeeds exactly for an own CREATED job whose files exist and are all uploaded; a job with a file missing from the bucket gets the 400 "Files not uploaded: " followed by exactly those paths joined by ", " in listing order; a job with no files always gets the "No files registered" 400 |
| DocumentProcessing.NotUploaded | services/foundations_document_processing/app.py:562 | the listed paths not in the bucket are exactly the paths of listed records that were not uploaded |
| DocumentProcessing.QueueFilesEffect | services/foundations_document_processing/app.py:572-574 | queuing the listed files sets exactly those records to QUEUED and leaves all others unchanged |
| DocumentProcessing.QueueJobFiles | services/foundations_document_processing/app.py:572-574 | the loop sets the listed files to QUEUED and adds one message per file, in order |
| DocumentProcessing.StartExtractionJob | services/foundations_document_processing/app.py:543-589 | the job's files are listed once; a refused start changes nothing and answers the check's error over that listing; a successful one queues one message per listed file and returns their number |
| DocumentProcessing.CompletedFilesCount | services/foundations_document_processing/app.py:136-152 | get_completed_files lists exactly the names of the job's COMPLETED records, one per record |
| DocumentProcessing.ChunkingGate | services/foundations_document_processing/app.py:349-366 | a chunking job is admitted exactly for an own extraction job that is COMPLETED or COMPLETED_WITH_ERRORS and has no chunking job waiting for queue allocation; refusals are 400, 403 or 404 |
| DocumentProcessing.NewChunkingJob | services/foundations_document_processing/app.py:371-381 | the new chunking job is WAITING_QUEUE_ALLOCATION with the given total and zero queued, completed and failed files, and records the strategy's name |
| DocumentProcessing.CreateChunkingJob | services/foundations_document_processing/app.py:275-391 | a refusal changes nothing; an admission lists the COMPLETED file names and saves exactly the new job with that many files |
| DocumentProcessing.SavedChunkFilesFound | services/foundations_document_processing/app.py:186-195 | with distinct ids every saved chunk-file record reads back under its id, and no other record changes |
| DocumentProcessing.SaveAndSendChunkFiles | services/foundations_document_processing/app.py:173-205 | per file, the QUEUED chunk-file record is saved and its message added to the chunking queue |
| DocumentProcessing.AddFilesToQueueForChunking | services/foundations_document_processing/app.py:169-216 | the records and messages are written; then the job becomes QUEUED with queued_files equal to the number of names, or a missing job gives 500 and the job table is unchanged |
| DocumentProcessing.RegisterCheck | services/foundations_document_processing/app.py:439-468 | every refusal is a 400, 403 or 404; a file passes only for an existing job of the caller in status CREATED, with a valid name not yet registered for that job |
| DocumentProcessing.StartCheck | services/foundations_document_processing/app.py:548-571 | every refusal is a 400, 403 or 404; a start passes only for an existing own CREATED job with at least one listed file, every listed file uploaded |
| DocumentProcessing.ChunkingCheck | services/foundations_document_processing/app.py:349-362 | every refusal is a 400, 403 or 404; a chunking job passes only for an existing own extraction job in COMPLETED or COMPLETED_WITH_ERRORS with no chunking job waiting for queue allocation |
| Store.Platform.constructor | services/foundations_extraction/app.py:206 | the store starts with empty tables and queues, and each worker's semaphore holds MAX_CONCURRENT_TASKS permits |
| ExtractionWorker.RouteOf | services/foundations_extraction/app.py:142-185 | a path goes to Textract exactly when its lower-cased last '.'-segment is pdf, png, jpg, jpeg or tiff; it goes to the direct reader exactly when that segment is txt, md, html, json or jsonl; anything else is unsupported |
| ExtractionWorker.FinalStatus | services/foundations_extraction/app.py:64-71 | a finished job is COMPLETED_WITH_ERRORS exactly when it has both completed and failed files, FAILED exactly when it has only failures, and COMPLETED exactly when nothing failed |
| ExtractionWorker.UpdateJobFileEntry | services/foundations_extraction/app.py:89-99 | the file record's status is replaced when the record exists; a missing record changes nothing |
| ExtractionWorker.UpdateJobEntry | services/foundations_extraction/app.py:49-87 | the job's counters are recomputed from its file records; its status is settled once every file is done; a missing job changes nothing |
| ExtractionWorker.DeleteExtractionMessage | services/foundations_extraction/app.py:163 | exactly one copy of the message leaves the extraction queue |
| ExtractionWorker.Release | services/foundations_extraction/app.py:190-191 | the finally clause gives one semaphore permit back |
| ExtractionWorker.HandleExtraction | services/foundations_extraction/app.py:130-191 | the handler performs, in the source's order, exactly the store commands of its plan for the message and the outcome of the external work |
| ExtractionWorker.HandleTextract | services/foundations_extraction/app.py:145-170 | for a Textract type the handler performs exactly its plan: the file and job COMPLETED and the message deleted on success, FAILED with the message kept after a failure past extract(), only the permit after a failure in extract() |
| ExtractionWorker.HandleDirect | services/foundations_extraction/app.py:171-182 | for a text type the handler extends the visibility, then either writes COMPLETED, rolls the job up and deletes the message, or on failure returns only the permit |
| ExtractionWorker.HandleUnsupported | services/foundations_extraction/app.py:183-191 | for any other type the message is deleted first, then the file and the job are written FAILED and the permit returned |
| ExtractionWorker.StatusCountsBounded | services/foundations_extraction/app.py:56-64 | a job's completed and failed files never outnumber its files, and they fill the job exactly when every file is done |
| ExtractionWorker.RollupSettles | services/foundations_extraction/app.py:49-87 | after update_job_entry the counters are at most the file count; the status is terminal when all files are done and unchanged otherwise; nothing else in the job changes |
| ExtractionWorker.RollupIdempotent | services/foundations_extraction/app.py:52-81 | because the counters are recomputed rather than incremented, rolling up twice over the same files equals rolling up once |
| ExtractionWorker.RollupWithoutFiles | services/foundations_extraction/app.py:56-71 | a job with no file records is settled to COMPLETED with zero counts by any rollup |
| ExtractionWorker.FileNameIsRegistrationKey | services/foundations_extraction/app.py:137 | for a registered name (no '/'), the handler's file name is the name under which the file was registered |
| ExtractionWorker.FileTypeFollowsName | services/foundations_extraction/app.py:142 | when the name has a '.', the worker computes the same file type from the whole path that register_file computed from the name |
| ExtractionWorker.NoExtensionIsUnsupported | services/foundations_extraction/app.py:183-187 | a path with no '.' at all is routed to the unsupported branch |
| ExtractionWorker.PlanEffect | services/foundations_extraction/app.py:130-191 | both success paths write COMPLETED and roll the job up; a Textract failure after extract() and an unsupported type write FAILED; a failure in extract() or in the direct branch writes nothing; the message is deleted exactly on success or when unsupported; one permit is returned |
| ExtractionWorker.ReleasedOnce | services/foundations_extraction/app.py:190-191 | every path releases the permit exactly once, as its last step |
| ExtractionWorker.SetFileStatusIdempotent | services/foundations_extraction/app.py:89-94 | writing the same file status twice equals writing it once |
| ExtractionWorker.RedeliveryIdempotent | services/foundations_extraction/app.py:130-191 | a handler that stops after any number of its steps, followed by a full redelivery of the message, leaves the same records as one clean run |
| ExtractionWorker.CrashBeforeDeleteKeepsMessage | services/foundations_extraction/app.py:157-163 | on both success paths a crash before the delete leaves the message in the queue, so it will be redelivered |
| ExtractionWorker.UnsupportedCrashAfterDelete | services/foundations_extraction/app.py:183-187 | on the unsupported path the delete comes first: a crash right after it loses the FAILED write with the message already gone |
| ExtractionWorker.ConsistentCountsBounded | services/foundations_extraction/app.py:64-81 | in a consistent store a started job's counters never exceed its total, and it is terminal exactly when they add up to it |
| ExtractionWorker.OtherJobUntouched | services/foundations_extraction/app.py:89-94 | writing one file's status leaves every other job's completed set, failed set and all-done flag as they were |
| ExtractionWorker.DoneStaysDone | services/foundations_extraction/app.py:64 | marking a file COMPLETED or FAILED never undoes "all files done" |
| ExtractionWorker.WrittenPreserves | services/foundations_extraction/app.py:157-158 | writing a done status and rolling the job up keeps a consistent store consistent when the job has left CREATED |
| ExtractionWorker.PlanPreservesConsistency | services/foundations_extraction/app.py:130-191 | handling any message with any outcome keeps the store consistent, as long as the message's job has left CREATED or does not exist |
| ExtractionWorker.Rollup | services/foundations_extraction/app.py:49-87 | only the status and the two file counters of the job change, and the status changes only to a terminal one |
| ExtractionWorker.Plan | services/foundations_extraction/app.py:130-191 | whatever the outcome, the handler issues at least one command and its last command releases the semaphore permit |
| ExtractionWorker.Run | services/foundations_extraction/app.py:130-191 | running the handler's commands changes only the extraction job and file records, and adds or removes none of them |
| ExtractionLifecycle.SoundCountsBounded | services/foundations_extraction/app.py:56-81 | in a sound store no job has counted more files than it holds, and a started job is terminal exactly when its counts add up to its total |
| ExtractionLifecycle.CreateKeepsSound | services/foundations_document_processing/app.py:236-257 | creating a job under a fresh id keeps the store sound |
| ExtractionLifecycle.RegisterKeepsSound | services/foundations_document_processing/app.py:475-491 | a successful registration keeps the store sound |
| ExtractionLifecycle.StartKeepsSound | services/foundations_document_processing/app.py:572-581 | a successful start keeps the store sound, whatever order the files are listed in |
| ExtractionLifecycle.HandleKeepsSound | services/foundations_extraction/app.py:130-191 | handling a message taken from the queue keeps the store sound for every outcome, and so does each redelivery |
| Chunkers.PagewiseChunk | services/foundations_chunking/utils/page_wise_chunking.py:6-12 | exactly one chunk per page, in page order, carrying the page's text or "" when it has none; a document without pages gives no chunks |
| Chunkers.JsonlChunk | services/foundations_chunking/utils/json_chunking.py:21-27 | one chunk per '\n'-separated line of the first page's text; a document without a first page raises |
| Chunkers.JsonlLines | services/foundations_chunking/utils/json_chunking.py:25-26 | the jsonl chunks are the lines: one more chunk than newlines, no chunk holds a newline, and joining them with '\n' gives the text back |
| Chunkers.JsonChunk | services/foundations_chunking/utils/json_chunking.py:9-19 | every error (no first page, text that does not parse) yields None; otherwise there is one chunk per piece of the splitter, in order |
| ChunkingWorker.SelectChunker | services/foundations_chunking/app.py:120-149 | json and jsonl files bypass the strategy; otherwise an unknown strategy raises, and the page-wise chunker is chosen only for "page" |
| ChunkingWorker.SaveChunksToStore | services/foundations_chunking/app.py:58-64 | the chunks object is written under its key |
| ChunkingWorker.DeleteChunkingMessage | services/foundations_chunking/app.py:157-160 | exactly one copy of the message leaves the chunking queue |
| ChunkingWorker.CompleteChunkFile | services/foundations_chunking/app.py:163-178 | the chunk file becomes COMPLETED when found; when its job is found too, the job becomes COMPLETED with one file moved from queued to completed |
| ChunkingWorker.Release | services/foundations_chunking/app.py:183-184 | the finally clause gives one semaphore permit back |
| ChunkingWorker.HandleChunking | services/foundations_chunking/app.py:105-184 | the handler performs, in the source's order, exactly the store commands of its plan for the message and the outcome |
| ChunkingWorker.AdmittedMessageHasChunker | services/foundations_chunking/app.py:124-149 | every message create_chunking_job sends finds a chunker: json and jsonl by extension, others by strategy, with the request's size and overlap (1000 and 0 when no parameters were given) |
| ChunkingWorker.ChunkKeyIsRecordPath | services/foundations_chunking/app.py:153 | the i-th message admission sends names the i-th saved chunk-file record, and the worker writes that message's chunks under exactly the record's file_path |
| ChunkingWorker.PlanEffect | services/foundations_chunking/app.py:105-184 | on success the chunks are saved, the message deleted, the file COMPLETED and the job counted when found; on any error only the permit is returned; no extraction or vector record is touched |
| ChunkingWorker.ReleasedOnce | services/foundations_chunking/app.py:183-184 | every path releases the permit exactly once, as its last step |
| ChunkingWorker.CountsConserved | services/foundations_chunking/app.py:170-173 | handling a message keeps each job's queued + completed sum, its failed count and its total unchanged |
| ChunkingWorker.CompletedBeforeAllFiles | services/foundations_chunking/app.py:170 | the first completed file marks the job COMPLETED while other files are still queued |
| ChunkingWorker.RedeliveryCountsTwice | services/foundations_chunking/app.py:171-172 | the job update is an increment: a message handled twice counts its file twice |
| ChunkingWorker.CrashAfterDeleteLosesCompletion | services/foundations_chunking/app.py:154-166 | the delete precedes the record writes, so a crash between them leaves the chunks saved and the message gone but the file never counted |
| VectorJobProcess.Increment | services/foundations_vector_job_process/app.py:61-83 | update_job_entry adds one to the counter its status names (none for other statuses), keeps total and queued, and leaves IN_PROGRESS exactly while the counters do not add up to the total |
| VectorJobProcess.UpdateJobFileEntry | services/foundations_vector_job_process/app.py:93-101 | the file record's status is replaced when it exists; otherwise nothing changes |
| VectorJobProcess.UpdateJobEntry | services/foundations_vector_job_process/app.py:61-90 | an existing job is incremented and its status rewritten; a missing job changes nothing |
| VectorJobProcess.DeleteVectorMessage | services/foundations_vector_job_process/app.py:190-193 | exactly one copy of the message leaves the vectorization queue |
| VectorJobProcess.Release | services/foundations_vector_job_process/app.py:210-211 | the finally clause gives one semaphore permit back |
| VectorJobProcess.HandleVectorization | services/foundations_vector_job_process/app.py:163-211 | the handler performs, in the source's order, exactly the store commands of its plan for the message and the outcome |
| VectorJobProcess.IncrementSettles | services/foundations_vector_job_process/app.py:72-79 | once the counters add up to the total, the status is the same three-way terminal status the extraction rollup uses; a status other than COMPLETED or FAILED moves no counter |
| VectorJobProcess.IncrementNeutralIdempotent | services/foundations_vector_job_process/app.py:64-83 | repeating an update whose status counts nothing changes nothing more |
| VectorJobProcess.PlanEffect | services/foundations_vector_job_process/app.py:163-211 | a message missing a key only returns the permit; success deletes the message, then marks the file COMPLETED and counts it on its job; failure keeps the message, marks the file FAILED and counts the failure on the job whose id is the app_id |
| VectorJobProcess.ReleasedOnce | services/foundations_vector_job_process/app.py:210-211 | every path releases the permit exactly once, as its last step |
| VectorJobProcess.FailureMissesJob | services/foundations_vector_job_process/app.py:207-208 | the failure path updates the job named by app_id, so the vectorization job itself is left as it was |
| VectorJobProcess.RedeliveryCountsTwice | services/foundations_vector_job_process/app.py:64-83 | the increment is not idempotent: a success handled twice counts two completions, and a one-file job ends IN_PROGRESS with completed above total |
| VectorJobProcess.CrashAfterDeleteLosesCompletion | services/foundations_vector_job_process/app.py:190-199 | the delete precedes the status writes, so a crash between them loses the completion for good |
| Vectorize.SortFacts | services/foundations_vector_job_process/utils/vectorize.py:78 | sorting by index returns the results in index order and as a permutation of its input |
| Vectorize.ArrivedFacts | services/foundations_vector_job_process/utils/vectorize.py:73-75 | every result as_completed yields is some document's index paired with that document's embedding, and no result repeats |
| Vectorize.OrderRestored | services/foundations_vector_job_process/utils/vectorize.py:72-82 | whatever order the embeddings arrive in, after the sort the i-th result is document i with the embedding of its text |
| Vectorize.VectorizeAndStore | services/foundations_vector_job_process/utils/vectorize.py:62-91 | it fails exactly when there is no data, the data does not parse or a chunk lacks "chunk", always with the vectorization prefix; otherwise the i-th stored pair is the i-th chunk's text and its embedding |
| Base32.ValueOfBits | services/foundations_vectorization/app.py:72 | reading back the w low bits of a value below 2^w gives the value |
| Base32.BitsOfValue | services/foundations_vectorization/app.py:72 | writing a bit string's value in as many bits gives the string back |
| Base32.BytesRoundTrip | services/foundations_vectorization/app.py:70-72 | bytes turned into 8 bits each and back are the same bytes |
| Base32.QuintetsRoundTrip | services/foundations_vectorization/app.py:72 | the 5-bit groups hold exactly the input bits followed by the zero fill |
| Base32.LowerSymbols | services/foundations_vectorization/app.py:73 | lower-casing the RFC 4648 symbols gives a-z and 2-7, and these read back as the groups |
| Base32.EncodeStripped | services/foundations_vectorization/app.py:72 | stripping the '=' padding leaves exactly the symbols |
| Base32.ShortIdSymbols | services/foundations_vectorization/app.py:69-73 | the short id is one lower-case symbol per 5-bit group, and the symbols read back as the groups |
| Base32.ShortIdShape | services/foundations_vectorization/app.py:69-73 | a uuid's 16 bytes give a 26-character id of a-z and 2-7, so "lp" + id has 28 characters |
| Base32.ShortId | services/foundations_vectorization/app.py:69-73 | the id has one lower-case symbol per five-bit group of the bytes: the "=" padding is stripped and the letters lower-cased |
| Base32.ShortIdRoundTrip | services/foundations_vectorization/app.py:69-73 | decoding the short id gives back the uuid bytes, for byte strings of any length |
| Base32.ShortIdInjective | services/foundations_vectorization/app.py:69-73 | distinct uuids give distinct short ids |
| OpenSearchPolicies.EncryptionCovers | services/foundations_vectorization/utils/opensearchutil.py:37-54 | the encryption policy on name + "*" covers every collection named name + anything, no collection without that prefix, and no index |
| OpenSearchPolicies.NetworkCovers | services/foundations_vectorization/utils/opensearchutil.py:56-83 | the network policy on name + "*" opens the collection and its dashboard, only for names with that prefix, from the given VPC endpoint and not from the public |
| OpenSearchPolicies.DataAccessCovers | services/foundations_vectorization/utils/opensearchutil.py:85-113 | the data-access policy on the bare name grants the role the collection itself and every index inside it, and nothing outside it |
| OpenSearchPolicies.CreateCollection | services/foundations_vectorization/utils/opensearchutil.py:115-129 | the collection request is VECTORSEARCH under the given name, and absent tags become [] |
| OpenSearchPolicies.CreateIndexFacts | services/foundations_vectorization/utils/opensearchutil.py:179-207 | create_index leaves an existing index alone, otherwise adds a knn index with a 1536-dimension vector field and a text field; a second call changes nothing |
| OpenSearchPolicies.SimilarityTexts | services/foundations_vectorization/utils/opensearchutil.py:221-229 | each search result holds exactly the key "text", and the texts are the hits in order |
| OpenSearchPolicies.EncryptionPolicy | services/foundations_vectorization/utils/opensearchutil.py:37-54 | an "encryption" policy with the given name and description, an AWS-owned key, every rule a collection rule on "collection/" + the pattern |
| OpenSearchPolicies.NetworkPolicy | services/foundations_vectorization/utils/opensearchutil.py:56-83 | a "network" policy with the given name and description whose every rule is a dashboard or collection rule on "collection/" + the pattern |
| OpenSearchPolicies.DataAccessPolicy | services/foundations_vectorization/utils/opensearchutil.py:85-113 | a "data" policy with the given name and description whose every rule is a collection or index rule carrying its permissions |
| OpenSearchPolicies.CreateIndex | services/foundations_vectorization/utils/opensearchutil.py:179-207 | afterwards the index name exists and every index that existed before keeps its body |
| OpenSearchPolicies.SimilarityResults | services/foundations_vectorization/utils/opensearchutil.py:221-229 | one result per hit |
| VectorizationService.StoreNameFacts | services/foundations_vectorization/app.py:188 | a store name is "lp" followed by 26 characters of a-z and 2-7, and distinct uuids give distinct names |
| VectorizationService.StorePolicies | services/foundations_vectorization/app.py:191-213 | the three requested policies are named name-ep, name-np and name-dp, of types encryption, network and data |
| VectorizationService.StoreNameNoWildcard | services/foundations_vectorization/app.py:188 | a store name never ends in '*' |
| VectorizationService.StorePoliciesCover | services/foundations_vectorization/app.py:191-213 | a store's policies cover its collection, its dashboard and every index in it, and grant nothing whose name does not start with the store name |
| VectorizationService.ArnDomainOfCollection | services/foundations_vectorization/app.py:224-225 | for an ARN ending in ":collection/<id>", the host is built from exactly id |
| VectorizationService.CreateOpenSearchCollection | services/foundations_vectorization/app.py:187-233 | an unsupported store type is reported as 500 carrying "400: Invalid store type" with nothing sent; otherwise the three policies and the collection are requested; an ARN without a '/' part gives 500; success saves one store record under (store id, app id) |
| VectorizationService.CreateKeepsStoresKeyed | services/foundations_vectorization/app.py:108-111 | creating a store keeps every store record under its own app id |
| VectorizationService.NewVectorizeJob | services/foundations_vectorization/app.py:119-123 | a new vectorization job is STARTED with every counter 0 |
| VectorizationService.VectorizeGate | services/foundations_vectorization/app.py:596-644 | a job starts exactly for the caller's own COMPLETED chunking job that has chunk files, with an index whose store is the caller's; since stores are keyed by app id, the store "does not belong" 403 never fires |
| VectorizationService.SentPerCompletedFile | services/foundations_vectorization/app.py:646-665 | exactly one record and one message per COMPLETED chunk file; each message carries every key the worker reads and names the new job and its record's id; each record is QUEUED under the store id |
| VectorizationService.FewerMessagesThanFiles | services/foundations_vectorization/app.py:638-647 | as many messages as chunk files are sent exactly when every chunk file is COMPLETED |
| VectorizationService.SendChunkFiles | services/foundations_vectorization/app.py:646-665 | the loop saves the records and adds the messages of the COMPLETED chunk files, in order |
| VectorizationService.StartJob | services/foundations_vectorization/app.py:638-665 | the new vectorize job is saved, its total set to the number of chunk files, and then one record and one message per COMPLETED chunk file added; the result is the store's vectorized state |
| VectorizationService.VectorizeAndStoreChunk | services/foundations_vectorization/app.py:593-672 | a refused request changes nothing; an admitted one enumerates the chunk files, creates the job with their number as total, and sends one message per COMPLETED file |
| VectorizationService.SentMessageTargetsJob | services/foundations_vectorization/app.py:646-665 | handled successfully, a sent message completes the record it names and counts it on this job; on failure the count goes to the job whose id is the app id |
| VectorizationService.IndexStatus | services/foundations_vectorization/app.py:433-457 | a missing index or another app's store gives 404; otherwise the index is ACTIVE exactly when the lookup returns, and NOT_FOUND_OR_READY when it raises |
| VectorizationService.VectorizeCheck | services/foundations_vectorization/app.py:596-644 | every refusal is a 400, 403 or 404; a request passes only for an own COMPLETED chunking job, a known index and at least one chunk file |
| VectorizationService.StoreName | services/foundations_vectorization/app.py:188 | the store name is "lp" followed by the short id, and decoding the text after "lp" gives back the uuid bytes |
| Extractor.Find | services/foundations_extraction/utils/extractor.py:95 | the first position where a pattern occurs, or None exactly when it occurs nowhere |
| Extractor.FirstMatch | services/foundations_extraction/utils/extractor.py:95 | a match starting at "<table>" reaches the first "</table>" after the opening tag (the non-greedy .*?) |
| Extractor.CutTablesFacts | services/foundations_extraction/utils/extractor.py:95-96 | cutting loses no character: kept text plus cut tables is as long as the page, and every cut piece is a shortest <table>...</table> match |
| Extractor.NoTablesNoCut | services/foundations_extraction/utils/extractor.py:95-96 | a page without "<table>" keeps all its text and has no tables |
| Extractor.ExtractTablesFromPage | services/foundations_extraction/utils/extractor.py:94-98 | extract_tables_from_page returns as many tables as the regular expression finds |
| Extractor.TablesAreUnstripped | services/foundations_extraction/utils/extractor.py:97 | strip() changes no match, since every match starts with '<' and ends with '>' |
| Extractor.AllTextLength | services/foundations_extraction/utils/extractor.py:139 | all_text holds each page's text plus 13 characters of <page> markup per page |
| Extractor.PageTables | services/foundations_extraction/utils/extractor.py:136-140 | the table lists are keyed by exactly the page numbers 1..n |
| Extractor.PageTablesAt | services/foundations_extraction/utils/extractor.py:136-140 | page number n holds the tables cut from the n-th page |
| Extractor.GetDocument | services/foundations_extraction/utils/extractor.py:100-143 | the stored pages keep their table markup, the tables are keyed by page number from 1, all_text wraps every page in <page> markup, and the input path is the file name |
| Extractor.ExtractNonPdf | services/foundations_extraction/utils/extractor.py:83-92 | the whole object is the single page and the whole text, there are no tables, and the input path is the key's last '/'-segment |
| Extractor.TextPayload | services/foundations_extraction/utils/extractor.py:20-24 | the text payload has one entry per page, numbered from 1, holding that page's text |
| Extractor.TablesPayloadPages | services/foundations_extraction/utils/extractor.py:26-30 | the tables payload lists exactly pages 1..n: a page without tables gets [], and tables keyed outside 1..n appear nowhere |
| Extractor.DocumentTablesPerPage | services/foundations_extraction/utils/extractor.py:26-30 | for a document from get_document, the i-th tables entry holds the tables cut from the i-th page |
| Extractor.TextPayloadFeedsChunkers | services/foundations_extraction/utils/extractor.py:20-24 | given to the page-wise chunker, the text payload yields the document's pages, one chunk per page |
| Extractor.Bucket.constructor | services/foundations_extraction/utils/extractor.py:17 | the results bucket starts empty |
| Extractor.Bucket.S3Save | services/foundations_extraction/utils/extractor.py:17-66 | the name is cut to its last '/'-segment; the text and tables objects are written; a missing metadata object starts empty; one entry is appended and the object is written back; metadata that does not parse raises after the first two writes |
| Extractor.ResultKeysDistinct | services/foundations_extraction/utils/extractor.py:32-48 | a file's three result objects have distinct keys, and the text key is the path the chunking messages name |
| Extractor.SaveTwice | services/foundations_extraction/utils/extractor.py:48-66 | saving the same file twice (a redelivered message) leaves the same metadata entry listed twice |
| Extractor.CutTables | services/foundations_extraction/utils/extractor.py:94-98 | the text left after cutting is no longer than the page, and every cut table uses at least the 15 characters of its two tags |
| Extractor.TablesPayload | services/foundations_extraction/utils/extractor.py:26-30 | the tables payload carries the job id and file name and has one entry per page, not per table key |
| PromptTemplates.NewVersion | services/foundations_prompt_management/app.py:97-109 | an app with no template of that name gets version 1 |
| PromptTemplates.NewVersionIsMaxPlusOne | services/foundations_prompt_management/app.py:97-109 | on the app's newest-first query, the new version is above every version the app stored under that name, one of them is just below it, and the new key holds none of the app's templates |
| PromptTemplates.Save | services/foundations_prompt_management/app.py:182 | save writes the template under (name, version), replacing whatever was there and keeping every other item |
| PromptTemplates.TemplateStore.constructor | services/foundations_prompt_management/app.py:131-132 | the template table starts empty |
| PromptTemplates.TemplateStore.CreatePromptTemplate | services/foundations_prompt_management/app.py:173-183 | the answer carries the next version, and the table gains the template under (name, next version) |
| PromptTemplates.CrossAppOverwrite | services/foundations_prompt_management/app.py:97-109 | versions are counted per app but keyed without it: a second app saving the same name gets version 1 and overwrites the first app's version 1 |
| PromptTemplates.GetPromptTemplate | services/foundations_prompt_management/app.py:231-242 | get_prompt_template returns an item of highest version, and 404 "Prompt template not found" exactly when the query is empty |
| PromptTemplates.LatestIsFirst | services/foundations_prompt_management/app.py:238-242 | on a newest-first query the latest template is the first item, whose version is one below the next new version |
| PromptTemplates.GetAllPromptTemplate | services/foundations_prompt_management/app.py:288-297 | every version in query order, and 404 exactly when there is none |
| PromptTemplates.FirstWithVersion | services/foundations_prompt_management/app.py:350-356 | next() finds an item with the version asked for, or None exactly when no item has it |
| PromptTemplates.GetPromptTemplateVersion | services/foundations_prompt_management/app.py:349-359 | the app's template with exactly that version, and 404 "Prompt template version not found" exactly when there is none |
| PromptTemplates.VersionLookupMatchesTable | services/foundations_prompt_management/app.py:349-359 | the version lookup succeeds exactly when (name, vnum) is stored for this app, and returns that item |
| PromptTemplates.GroupedByName | services/foundations_prompt_management/app.py:399-409 | the listing has a group for exactly the names present, each holding that name's entries in query order |
| PromptTemplates.EntriesCount | services/foundations_prompt_management/app.py:400-404 | a name's group has one entry per item of that name |
| PromptTemplates.ListPromptTemplate | services/foundations_prompt_management/app.py:393-411 | the loop groups the app's templates by name, each name's list holding its (version, prompt_template) entries in query order |
| ModelAdapters.RegistriesAgree | services/foundations_model_invocation/adapters.py:189-271 | the input, output and model-id registries hold the same 25 distinct names; each name is read back by the output adapter of the family that built its request, and every model id is non-empty |
| ModelAdapters.EmbedFamiliesLast | services/foundations_model_invocation/adapters.py:211-214 | the last four registered names, and only they, use an embed input adapter |
| ModelAdapters.EmbedNames | services/foundations_model_invocation/app.py:385-386 | a registered name contains "EMBED" exactly when it is mapped to an embed adapter, so the substring test the routes use agrees with the registry |
| ModelAdapters.PromptJson | services/foundations_model_invocation/adapters.py:36 | an absent prompt is sent as null, a string prompt as that string, a message list as that list |
| ModelAdapters.InputAdapter | services/foundations_model_invocation/adapters.py:33-131 | embed families send only inputText, texts or input_type; every text family sends the prompt under one of its prompt keys |
| ModelAdapters.FalsyIsAbsent | services/foundations_model_invocation/adapters.py:38-41 | a parameter set to 0, 0.0, the empty list or the empty input type builds the same body as one left unset, for every family |
| ModelAdapters.TitanDefaults | services/foundations_model_invocation/adapters.py:33-43 | with nothing set, Titan text asks for temperature 0.7, topP 0.9, 100 tokens and no stop sequences |
| ModelAdapters.AnthropicDefaults | services/foundations_model_invocation/adapters.py:45-56 | with nothing set, Anthropic asks for 1000 tokens, top_k 40, temperature 0.7, top_p 0.9, no stop sequences and an empty system text |
| ModelAdapters.SetParametersKept | services/foundations_model_invocation/adapters.py:45-56 | non-zero parameters reach the Anthropic body unchanged |
| ModelAdapters.AnthropicWrap | services/foundations_model_invocation/adapters.py:46-51 | a string prompt becomes one user message with one text part; a message list or an absent prompt is sent as given |
| ModelAdapters.EmbedInputs | services/foundations_model_invocation/adapters.py:123-131 | Titan embed sends the text alone; Cohere embed sends a one-text list with input type search_document when none is given |
| ModelAdapters.OutputAdapter | services/foundations_model_invocation/adapters.py:134-187 | a response is read only from a dict; text families never fill the embedding and embed families never fill the output text |
| ModelAdapters.TitanTextOutputKeys | services/foundations_model_invocation/adapters.py:134-139 | Titan text reads results[0]'s outputText and tokenCount and the top-level inputTextTokenCount, each None when absent; a results list that is empty or whose first entry is not a dict raises |
| ModelAdapters.AnthropicOutputKeys | services/foundations_model_invocation/adapters.py:141-146 | Anthropic reads content[0]'s text and usage's input_tokens and output_tokens, each None when absent; an empty content list or a usage that is not a dict raises |
| ModelAdapters.Ai21OutputKeys | services/foundations_model_invocation/adapters.py:148-151 | AI21 succeeds exactly when completions[0] is a dict holding a dict under 'data', and then reads that dict's text with no token counts |
| ModelAdapters.CohereCommandOutputKeys | services/foundations_model_invocation/adapters.py:153-156 | Cohere command reads generations[0]'s text, None when absent, with no token counts; an unusable generations list raises |
| ModelAdapters.CohereCommandROutputKeys | services/foundations_model_invocation/adapters.py:158-163 | Cohere command-R reads the top-level text and token_count's prompt_tokens and response_tokens, each None when absent; a token_count that is not a dict raises |
| ModelAdapters.MetaOutputKeys | services/foundations_model_invocation/adapters.py:165-170 | Meta reads generation, prompt_token_count and generation_token_count, each None when absent, and never fails on a dict |
| ModelAdapters.MistralOutputKeys | services/foundations_model_invocation/adapters.py:172-175 | Mistral reads outputs[0]'s text, None when absent, with no token counts; an unusable outputs list raises |
| ModelAdapters.TitanEmbedOutputKeys | services/foundations_model_invocation/adapters.py:177-181 | Titan embed reads embedding and inputTextTokenCount, each None when absent, and never fails on a dict |
| ModelAdapters.CohereEmbedOutputKeys | services/foundations_model_invocation/adapters.py:183-186 | Cohere embed reads embeddings[0], with [[]] as the default list, and raises on an empty or non-list value |
| ModelAdapters.EmptyResponse | services/foundations_model_invocation/adapters.py:134-187 | an empty response body raises for AI21 only, gives an empty embedding for Cohere embed, and reads as all-None for every other family |
| ModelAdapters.EmptyResultListRaises | services/foundations_model_invocation/adapters.py:134-175 | a present but empty results, content, completions, generations or outputs list raises instead of reading None |
| ModelAdapters.TitanTextReadsBack | services/foundations_model_invocation/adapters.py:134-139 | a well-formed Titan text response reads back its text and both token counts |
| ModelAdapters.FromResponse | services/foundations_model_invocation/adapters.py:23-30 | each standard field is the response value under the key its mapping names (key "" when unmapped), or None when the response lacks that key |
| ModelAdapters.UnmappedFieldIsNone | services/foundations_model_invocation/adapters.py:24-30 | a field missing from the mapping reads None unless the response has the key "" |
| ModelAdapters.CheckPrompt | services/foundations_model_invocation/models.py:39-49 | a string prompt is accepted unchanged; a list only when every element is a dict with role and content; anything else is refused with its message |
| ModelAdapters.CheckPromptLists | services/foundations_model_invocation/models.py:42-47 | the empty list passes, and one bad element anywhere fails the whole list |
| ModelAdapters.NewInvokeModelRequest | services/foundations_model_invocation/models.py:28-37 | a request with only the required fields has every optional field None |
| ModelAdapters.NewInvokeEmbedModelRequest | services/foundations_model_invocation/models.py:55-57 | an embed request without input_text carries None |
| ModelInvocation.Listing | services/foundations_model_invocation/app.py:385-386 | each listed model is a registered name with its own id, in the list that matches whether its name contains "EMBED" |
| ModelInvocation.ListingPartition | services/foundations_model_invocation/app.py:385-386 | every registered name appears in exactly one of the two lists, and the lengths add up to the registry size |
| ModelInvocation.EmbedListing | services/foundations_model_invocation/app.py:386 | the embed list holds exactly the models registered with an embed adapter, with their ids |
| ModelInvocation.CheckModel | services/foundations_model_invocation/app.py:493-500 | a name missing from either adapter registry is 400 Unsupported model; a pass yields the name's non-empty model id |
| ModelInvocation.CheckEmbedModel | services/foundations_model_invocation/app.py:627-635 | the embed route adds 400 "Model is not an embed model" for names without "EMBED" after the shared checks |
| ModelInvocation.CheckModelAccepts | services/foundations_model_invocation/app.py:493-500 | the checks pass exactly for the 25 registered names |
| ModelInvocation.CheckEmbedModelAccepts | services/foundations_model_invocation/app.py:627-635 | the embed route accepts exactly the names registered with an embed adapter |
| ModelInvocation.EmbedRequestBody | services/foundations_model_invocation/app.py:627-648 | an embed request yields a body exactly when its model passes the embed checks |
| ModelInvocation.CohereEmbedBody | services/foundations_model_invocation/app.py:637-648 | Cohere embed asks for search_document embeddings of the one text, since the route sends input type "" |
| ModelInvocation.ConverseMessages | services/foundations_model_invocation/app.py:518-522 | the four AI21 and Cohere command models get only the last message of a longer list; other models get the list unchanged |
| ModelInvocation.InferenceConfig | services/foundations_model_invocation/app.py:524-532 | each inference parameter is present exactly when the request's value is truthy, and then carries that value |
| ModelInvocation.AdditionalFields | services/foundations_model_invocation/app.py:534-539 | a truthy top_k goes out as top_k for ANTHROPIC and MISTRAL names (MISTRAL_LARGE_V1:0 excepted), as k for COHERE names, and not at all otherwise |
| ModelInvocation.MetaGetsNoTopK | services/foundations_model_invocation/app.py:534-539 | a Meta model never forwards top_k |
| ModelInvocation.ShapeConverse | services/foundations_model_invocation/app.py:493-553 | a message-list request fails with the model check's error, or becomes a converse call with the model id, the trimmed messages, the system prompts (or none) and the truthy parameters |
| ModelInvocation.ConverseOutput | services/foundations_model_invocation/app.py:558-569 | a response without output or usage is 500 Unexpected response; otherwise the output text is a string and no embedding is returned |
| ModelInvocation.OutputText | services/foundations_model_invocation/app.py:561-563 | a message without a non-empty content list reads as the empty text |
| ModelInvocation.EmptyContentReadsEmpty | services/foundations_model_invocation/app.py:561-569 | an empty content list reads as output text "" with the usage token counts |
| ModelInvocation.ResultCache.constructor | services/foundations_model_invocation/app.py:146 | the cache starts empty |
| ModelInvocation.ResultCache.Set | services/foundations_model_invocation/app.py:146 | a write replaces the invocation's entry with a one-hour expiry and leaves the others |
| ModelInvocation.ResultCache.Invoke | services/foundations_model_invocation/app.py:141-179 | after an asynchronous invocation the entry holds SUCCESS with the adapted output and the app id, or FAILED with the error, expiring an hour after it finished |
| ModelInvocation.AsyncOutput | services/foundations_model_invocation/app.py:293-309 | a missing or expired id is 404; the result is returned exactly to the owner of a success; every other case is 500 |
| ModelInvocation.AsyncOutcomes | services/foundations_model_invocation/app.py:293-309 | within the hour after an invocation the owner reads the adapted output, another app gets 500 and a failed invocation gives 500; after the hour, 404 |
| ModelInvocation.InProgressIs500 | services/foundations_model_invocation/app.py:293-306 | while the invocation is in progress even its owner gets 500 |
| ModelInvocation.ListModels | services/foundations_model_invocation/app.py:385-388 | the two lists together are as long as the model registry, and no entry is in both |
| MetricRoutes.PadValue | admin-ui/backend/app/metric_routes.py:43 | a zero-padded number reads back as the number |
| MetricRoutes.DateTextParts | admin-ui/backend/app/metric_routes.py:28-29 | a `%Y-%m-%d` text splits at '-' into the padded year, month and day, each reading back as its number |
| MetricRoutes.ConvertToIso8601 | admin-ui/backend/app/metric_routes.py:24-37 | every failure (too few parts, a non-numeric part, a date that does not exist) is the one 400 Invalid date format error |
| MetricRoutes.MidnightIsRfc3339 | admin-ui/backend/app/metric_routes.py:32 | a date with four-digit year and two-digit month and day at midnight UTC is an RFC 3339 date-time |
| MetricRoutes.ConvertedIsRfc3339 | admin-ui/backend/app/metric_routes.py:24-34 | every converted date is an RFC 3339 date-time in UTC |
| MetricRoutes.ConvertDateText | admin-ui/backend/app/metric_routes.py:27-34 | a year-month-day text converts exactly when it names a real date, and then to that date at midnight UTC, so the yyyy-dd-mm order the comment names is not what is read |
| MetricRoutes.ParseYmd | admin-ui/backend/app/metric_routes.py:41 | whatever strptime accepts is a date that exists |
| MetricRoutes.ParseDateText | admin-ui/backend/app/metric_routes.py:41 | a valid date written `%Y-%m-%d` parses back to itself |
| MetricRoutes.ConvertToDynamoDbTimestamp | admin-ui/backend/app/metric_routes.py:39-44 | the result is a real date at midnight with microseconds, and it fails exactly when strptime fails |
| MetricRoutes.TimestampOfDateText | admin-ui/backend/app/metric_routes.py:39-44 | a valid date written `%Y-%m-%d` becomes that date followed by T00:00:00.000000 |
| MetricRoutes.ChooseFilter | admin-ui/backend/app/metric_routes.py:60-74 | between the converted start and end dates when both are given, at least the converted start or at most the converted end when only one is, no filter when neither is, always on the route's attribute; it fails exactly when a given date does not convert, with the start date's error first |
| MetricRoutes.FilterField | admin-ui/backend/app/metric_routes.py:289 | logs, extraction jobs and chunking jobs are filtered on timestamp; vector stores and vectorization jobs on created_at |
| MetricRoutes.GroupInvocations | admin-ui/backend/app/metric_routes.py:81-111 | the loop yields the fold of the logs in query order |
| MetricRoutes.GroupedFacts | admin-ui/backend/app/metric_routes.py:81-111 | a model has a group exactly when some log is for it; its total_count is its number of logs, its token totals are sums of the truthy counts, its model_name is the last seen, and each status count is the number of its logs with that status |
| MetricRoutes.CountsCoverAll | admin-ui/backend/app/metric_routes.py:104-111 | counting each of a list of distinct keys that covers every element counts every element once |
| MetricRoutes.TotalsAddUp | admin-ui/backend/app/metric_routes.py:82-104 | every log is counted in exactly one model's group: over the distinct models that have a group, the total_count values add up to the number of logs |
| MetricRoutes.StatusCountsAddUp | admin-ui/backend/app/metric_routes.py:104-111 | every log of a model is counted under exactly one status: over the distinct statuses of its group, the status counts add up to its total_count |
| MetricRoutes.Query | admin-ui/backend/app/metric_routes.py:76 | the query returns only the app's items whose date attribute passes the filter, and every such item, no more items than stored |
| MetricRoutes.QueryConcat | admin-ui/backend/app/metric_routes.py:76 | the query keeps table order: the result for two runs of the table is their two results one after the other, and one entry yields its item exactly when it is the app's and passes the filter |
| MetricRoutes.GetInvocations | admin-ui/backend/app/metric_routes.py:57-120 | a date that does not convert is 500 "An error occurred"; otherwise the grouped filtered logs with last_evaluated_key None |
| MetricRoutes.GroupJobs | admin-ui/backend/app/metric_routes.py:146-164 | the loop yields the fold of the jobs in query order |
| MetricRoutes.GroupedJobsFacts | admin-ui/backend/app/metric_routes.py:146-164 | a status has a group exactly when some job has it; its count and its completed, total and failed sums are over exactly those jobs |
| MetricRoutes.GetJobs | admin-ui/backend/app/metric_routes.py:123-172 | for the extraction, chunking and vectorization job routes: 500 on a bad date, otherwise the filtered jobs grouped by status with last_evaluated_key None |
| MetricRoutes.GetVectorStores | admin-ui/backend/app/metric_routes.py:225-257 | 500 on a bad date, otherwise the app's stores whose created_at passes the filter, in table order |
| MetricRoutes.GetVectorIndexes | admin-ui/backend/app/metric_routes.py:260-274 | the loop returns the indexes stored under the vector store id, in table order, with no date filter |
| MetricRoutes.IndexesOf | admin-ui/backend/app/metric_routes.py:263-266 | an index is in the result exactly when some row stores it under the id, and there are no more results than rows |
| MetricRoutes.IndexesConcat | admin-ui/backend/app/metric_routes.py:263-266 | one entry per stored index, in table order: the result for two runs of the table is their two results one after the other, and one row yields its index exactly when it is under the id |
| AdminMain.WithDefaultClient | admin-ui/backend/app/main.py:74-89 | afterwards some item holds the client; a table that already held it is unchanged; otherwise exactly one active item with an empty secret ARN is appended |
| AdminMain.DefaultClientIdempotent | admin-ui/backend/app/main.py:74-89 | writing the default client a second time changes nothing, whatever app id and time it would use |
| AdminMain.StatusSet | admin-ui/backend/app/main.py:270-283 | the items with the app id get the new status and every other item is unchanged |
| AdminMain.LastStatusWins | admin-ui/backend/app/main.py:261-308 | only the last status write to an app id counts |
| AdminMain.SecretArn | admin-ui/backend/app/main.py:243-251 | the recorded secret ARN is the response's ARN, or "failed" when the response has none |
| AdminMain.ValidateAppClient | admin-ui/backend/app/main.py:219-222 | a request passes exactly when both app_name and description are non-blank; app_name is checked first, each with its own 400 |
| AdminMain.WhitespaceNameRefused | admin-ui/backend/app/main.py:219-220 | an app name made only of characters str.isspace() accepts (all 29 Unicode whitespace code points) is refused like a missing one |
| AdminMain.UnicodeSpaceNameRefused | admin-ui/backend/app/main.py:219-220 | a name of a no-break space, or of a file separator and an ideographic space, is refused like a missing one |
| AdminMain.ParseClock | admin-ui/backend/app/main.py:330 | whatever `%H:%M:%S.%f` accepts has hour below 24, minute below 60 and second below 60 |
| AdminMain.ParseClockText | admin-ui/backend/app/main.py:330 | a clock with a one- to six-digit fraction parses back to its hour, minute and second |
| AdminMain.FormatDropsMicroseconds | admin-ui/backend/app/main.py:330 | a stored date_created with non-zero microseconds is listed as the same date and time without them |
| AdminMain.WholeSecondIsSkipped | admin-ui/backend/app/main.py:322-346 | a date_created stored at a whole second has no fraction, fails to parse, and its item is left out of the listing |
| AdminMain.ClockWithoutFraction | admin-ui/backend/app/main.py:330 | a time of day written `%H:%M:%S` with no fraction does not match `%H:%M:%S.%f` |
| AdminMain.ViewOf | admin-ui/backend/app/main.py:323-346 | an item yields an entry exactly when its date_created formats, and the entry carries the item's client, status and reformatted date |
| AdminMain.Somes | admin-ui/backend/app/main.py:322-346 | the kept entries are no more than the items |
| AdminMain.SomesMembers | admin-ui/backend/app/main.py:322-346 | the kept entries are exactly the entries that were produced |
| AdminMain.Entries | admin-ui/backend/app/main.py:322-346 | one candidate entry per scanned item, in scan order |
| AdminMain.ListingMembers | admin-ui/backend/app/main.py:310-350 | every listed entry comes from some item, every item whose date formats is listed, and the listing is no longer than the scan |
| AdminMain.AppClientTable.constructor | admin-ui/backend/app/main.py:77-78 | the table holds the scanned items |
| AdminMain.AppClientTable.AddAppClient | admin-ui/backend/app/main.py:53-72 | exactly one active item for the client is appended, and the client id and secret ARN are returned |
| AdminMain.AppClientTable.AddDefaultIfNotExists | admin-ui/backend/app/main.py:74-89 | the scan loop leaves the table as WithDefaultClient describes |
| AdminMain.AppClientTable.CreateAppClient | admin-ui/backend/app/main.py:213-258 | a blank field is 400 and a failing Cognito call or secret creation is 500, each writing nothing; otherwise the new client is returned active and exactly its item is appended |
| AdminMain.AppClientTable.SetStatus | admin-ui/backend/app/main.py:270-283 | a known app id gets the new status; an unknown or missing app id is 500 and changes nothing |
| AdminMain.AppClientTable.Deactivate | admin-ui/backend/app/main.py:261-283 | a known app id becomes inactive with "Client deactivated successfully"; otherwise 500 and nothing changes |
| AdminMain.AppClientTable.Activate | admin-ui/backend/app/main.py:286-308 | a known app id becomes active with "Client activated successfully"; otherwise 500 and nothing changes |
| AdminMain.AppClientTable.GetAllAppClients | admin-ui/backend/app/main.py:310-350 | the loop returns the listing, skipping items whose date does not format |
| AdminMain.ServicesHealth | admin-ui/backend/app/main.py:193-210 | one entry per configured service in order, healthy exactly when its GET with the bearer token answered 200 |
| AdminMain.Collected | admin-ui/backend/app/main.py:102-108 | the kept bodies are no more than the requests |
| AdminMain.CollectedFacts | admin-ui/backend/app/main.py:102-108 | the fetch fails exactly when some request raises or answers an error status; otherwise only 200 bodies are kept |
| AdminMain.OtherStatusIgnored | admin-ui/backend/app/main.py:105-108 | an answer that is neither 200 nor an error adds nothing |
| AdminMain.LaterSpecWins | admin-ui/backend/app/main.py:122-126 | a path keeps the entry of the last spec that has it |
| AdminMain.MainSpec | admin-ui/backend/app/main.py:110-120 | the merged document declares OpenAPI 3.0.2 and holds the merged paths |
| AdminMain.Requests | admin-ui/backend/app/main.py:102-104 | one GET per meta link, in order, at the base URL plus the link |
| AdminMain.FetchOpenApiSpec | admin-ui/backend/app/main.py:94-135 | no token gives no document; otherwise the document is the merge of the fetched specs, or none when a fetch or the merge fails |
| AdminMain.CollectSpecs | admin-ui/backend/app/main.py:102-108 | the fetch loop keeps the bodies Collected describes and stops with None at the first failure |
| AdminMain.CollectedNoneStays | admin-ui/backend/app/main.py:102-105 | once a request has failed, the whole fetch fails |
| AdminMain.MergeSpecs | admin-ui/backend/app/main.py:122-126 | the merge loop yields Merged of the specs |
| AdminMain.AddPaths | admin-ui/backend/app/main.py:123-125 | a spec's paths are added over the paths so far, replacing equal keys |
| AdminMain.MergedNoneStays | admin-ui/backend/app/main.py:122-126 | once a spec cannot be merged, the whole merge fails |
| AdminMain.FormatDateCreated | admin-ui/backend/app/main.py:330 | a reformatted date is at least 19 characters long and carries no fraction of a second |
| AdminMain.Merged | admin-ui/backend/app/main.py:122-126 | the merge succeeds exactly when every spec has object paths and components and schemas that dict.update takes, and then every path and schema of every spec is in the result |
| AdminMain.UpdateEntries | admin-ui/backend/app/main.py:126 | dict.update takes an object's entries, nothing from "", and raises on any other text and on null, booleans and numbers |
| AdminMain.PairEntries | admin-ui/backend/app/main.py:126 | a list updates exactly when every element is a key/value pair; every key appears, and the last pair's value is the one kept |
| AdminMain.EmptySchemasMerge | admin-ui/backend/app/main.py:122-126 | a spec whose schemas is [] or "" merges its paths and no schemas |
| AdminMain.PairSchemasMerge | admin-ui/backend/app/main.py:126 | of two pairs with one key the later wins, a two-character text is one pair, and a longer text is refused |
| RelayRoutes.ExternalApiUrl | admin-ui/backend/app/relay_routes.py:17 | the result is a prefix of the base URL that does not end in '/', and only '/' characters were removed |
| RelayRoutes.RelayedCount | admin-ui/backend/app/relay_routes.py:21-38 | no more relayed operations than operations |
| RelayRoutes.PathRoutes | admin-ui/backend/app/relay_routes.py:21-38 | a path item registers one route per relayed operation |
| RelayRoutes.PathRoutesShape | admin-ui/backend/app/relay_routes.py:32-38 | the k-th route of a path item is at "/admin" repeated k times before the document's path, with one of the four known methods, because the loop reassigns path at every registration |
| RelayRoutes.PathRoutesStep | admin-ui/backend/app/relay_routes.py:21-38 | one more operation adds its route at one more "/admin" when it is relayed, and nothing otherwise |
| RelayRoutes.UnrelayedAddsNothing | admin-ui/backend/app/relay_routes.py:22-35 | a GET, PUT or DELETE without a requestBody, or a method outside the four, adds no route |
| RelayRoutes.ReplaceAdminTimes | admin-ui/backend/app/relay_routes.py:76 | deleting "/admin" from any number of copies before a path deletes them all |
| RelayRoutes.RelayTargetOfRoute | admin-ui/backend/app/relay_routes.py:76 | every relay route of a path forwards to the base URL plus the document's path, however many "/admin" its own path carries |
| RelayRoutes.SecondOperationDoubled | admin-ui/backend/app/relay_routes.py:32-38 | a POST without body then a PUT with body on "/items" register "/admin/items" and then "/admin/admin/items" |
| RelayRoutes.GetRoutes | admin-ui/backend/app/relay_routes.py:40-45 | one catch-all GET route per service, in order, at its base path plus "{full_path:path}" |
| RelayRoutes.GetTargetOfService | admin-ui/backend/app/relay_routes.py:54 | a GET through the route at "/admin/<segment>/" goes to the base URL plus "/<segment>/" plus the full path |
| RelayRoutes.PlatformGetTarget | admin-ui/backend/app/relay_routes.py:54 | a GET through each configured service's catch-all route goes to the base URL plus that service's segment plus the full path |
| RelayRoutes.RelayResponse | admin-ui/backend/app/relay_routes.py:82-103 | the platform's JSON exactly when the request did not raise and the status is below 400 or at least 600; otherwise 500 Internal Server Error |
| RelayRoutes.RelayRouter.constructor | admin-ui/backend/app/relay_routes.py:16 | the router starts with no routes |
| RelayRoutes.RelayRouter.GeneratePostEndpoints | admin-ui/backend/app/relay_routes.py:19-38 | the nested loops append the routes of every path item, in document order |
| RelayRoutes.RelayRouter.AddPathRoutes | admin-ui/backend/app/relay_routes.py:21-38 | the inner loop appends exactly PathRoutes of the path item |
| RelayRoutes.RelayRouter.GenerateGetEndpoints | admin-ui/backend/app/relay_routes.py:40-45 | one catch-all GET route per service is appended, in order |
| RelayRoutes.RelayRouter.Init | admin-ui/backend/app/relay_routes.py:107-113 | the document's relay routes, then the services' GET routes, are appended |
| RelayRoutes.PostRoutes | admin-ui/backend/app/relay_routes.py:19-38 | every generated route has a known HTTP method and a path that starts with "/admin" |
| RelayRoutes.RelayTarget | admin-ui/backend/app/relay_routes.py:76 | a target URL that holds no "/admin" is the base URL followed by the route path, unchanged |
| CognitoTokens.Credentials | admin-ui/backend/app/utils.py:77 | the Basic credentials are the client id, one ':' and the secret, recoverable part by part |
| CognitoTokens.Request | admin-ui/backend/app/utils.py:77-88 | the POST goes to https://<domain>/oauth2/token with Basic credentials, grant type client_credentials, the client id and scope genaifoundations/read |
| CognitoTokens.Exchange | admin-ui/backend/app/utils.py:88-94 | the exchange succeeds exactly on a 200 answer, with the access token and expiry answer time + expires_in - 60; any other status raises "Failed to get access token" with the status and body |
| CognitoTokens.Refreshed | admin-ui/backend/app/utils.py:70-74 | a cached token is served while the clock is before its expiry; otherwise the fetched token is served and cached, or the fetch's error is raised with the cache as it was |
| CognitoTokens.FreshNeedsFetch | admin-ui/backend/app/utils.py:41-42 | the first get_token of a new manager always fetches |
| CognitoTokens.FetchedTokenReused | admin-ui/backend/app/utils.py:70-74 | after a 200 answer, every get_token before the new expiry returns the fetched token without a second exchange |
| CognitoTokens.ShortLivedTokenExpired | admin-ui/backend/app/utils.py:91 | a token whose expires_in is at most 60 seconds is already expired when it arrives |
| CognitoTokens.FailedFetchRetries | admin-ui/backend/app/utils.py:70-74 | a failed exchange leaves the cache as it was, so the next call fetches again |
| AdminTokens.DescribedFetch | admin-ui/backend/app/utils.py:96-111 | a failing client description is the fetch's error; otherwise the exchange uses the described secret |
| AdminTokens.KeySearchFirst | admin-ui/backend/app/utils.py:51-54 | a selected key is the first key carrying the header's kid, and when no key carries it none is selected |
| AdminTokens.UnknownKidRefused | admin-ui/backend/app/utils.py:46-67 | a token whose kid no key carries is refused, whatever the RSA verification would say |
| AdminTokens.TokenManager.constructor | admin-ui/backend/app/utils.py:36-43 | the secret argument is ignored: the manager starts with secret "", no token and expiry 0 |
| AdminTokens.TokenManager.ValidateTokenSignature | admin-ui/backend/app/utils.py:46-67 | true exactly when the keys and header were read, the loop selected a key and that key verifies the token; every failure is false |
| AdminTokens.TokenManager.FetchTokenWithSecret | admin-ui/backend/app/utils.py:76-94 | on success the access token is returned and the expiry set; on failure the error is raised and the expiry kept; the token itself is left to the caller |
| AdminTokens.TokenManager.FetchToken | admin-ui/backend/app/utils.py:96-111 | the described secret is stored before the exchange; a failing description raises and changes nothing |
| AdminTokens.TokenManager.GetToken | admin-ui/backend/app/utils.py:70-74 | the manager's cache moves as Refreshed says, with the fetch reading the secret from the client description |
| QuickstartTokens.CheckedExchange | cookbook/notebooks/quickstarts/utils.py:36-43 | a 4xx or 5xx answer raises the HTTPError of raise_for_status; any other answer is as in the shared exchange |
| QuickstartTokens.CheckedExchangeAgrees | cookbook/notebooks/quickstarts/utils.py:37-38 | raise_for_status changes only which error is raised: success, its token and expiry are as without it |
| QuickstartTokens.NewManagerNeverServes | cookbook/notebooks/quickstarts/utils.py:18-22 | as written, a new manager's first and every later get_token raises and the token stays None |
| QuickstartTokens.CorrectedFirstCallServes | cookbook/notebooks/quickstarts/utils.py:18-43 | refreshing through _fetch_token_with_secret, a new manager's first call returns the token of a 200 answer and caches it with its expiry |
| QuickstartTokens.TokenManager.constructor | cookbook/notebooks/quickstarts/utils.py:9-16 | the manager keeps the given secret and starts with no token and expiry 0 |
| QuickstartTokens.TokenManager.FetchTokenWithSecret | cookbook/notebooks/quickstarts/utils.py:24-43 | the checked exchange: the token is returned and the expiry set on success; the error is raised and the expiry kept otherwise |
| QuickstartTokens.TokenManager.GetToken | cookbook/notebooks/quickstarts/utils.py:18-22 | as written: a valid cached token is served; a needed refresh raises the AttributeError and leaves the cache unchanged |
| QuickstartTokens.TokenManager.GetTokenFixed | cookbook/notebooks/quickstarts/utils.py:18-43 | refreshing through _fetch_token_with_secret, the manager's cache moves as Refreshed says with the checked exchange |
| QuickstartTokens.GetTokenAsWritten | cookbook/notebooks/quickstarts/utils.py:18-22 | the cache never changes, and a token is returned exactly when no refresh is needed |
| QuickstartTokens.GetTokenCorrected | cookbook/notebooks/quickstarts/utils.py:18-43 | a cached unexpired token is returned as it is; when a refresh is needed the call succeeds exactly when the checked exchange does; a failure leaves the cache unchanged |
| Sdk.TokenManager.constructor | cookbook/sample-apps/document_summarization/sdk/accelerator.py:12-19 | the environment values are stored as read, with no token and expiry 0 |
| Sdk.TokenManager.FetchTokenWithSecret | cookbook/sample-apps/document_summarization/sdk/accelerator.py:27-45 | on a 200 answer the token is returned and the expiry set to answer time + expires_in - 60; otherwise the error is raised and the expiry kept |
| Sdk.TokenManager.GetToken | cookbook/sample-apps/document_summarization/sdk/accelerator.py:21-25 | the cached token while the clock is before the expiry; otherwise the fetched token, which is cached, or the error with the cache unchanged |
| Sdk.TrimBaseUrl | cookbook/sample-apps/document_summarization/sdk/accelerator.py:49-52 | an unset or empty PLATFORM_API_URL fails; otherwise exactly one trailing '/' is removed when there is one |
| Sdk.OneSlashRemoved | cookbook/sample-apps/document_summarization/sdk/accelerator.py:51-52 | a URL ending in "//" keeps one '/', so its endpoints get a double slash |
| Sdk.ReplyResult | cookbook/sample-apps/document_summarization/sdk/accelerator.py:66-75 | a request yields the parsed body exactly when it did not raise, its status is outside 400 to 599 and the body parses |
| Sdk.BaseService.constructor | cookbook/sample-apps/document_summarization/sdk/accelerator.py:48-57 | the service keeps the token manager and base URL and has only the Content-Type header |
| Sdk.BaseService.Request | cookbook/sample-apps/document_summarization/sdk/accelerator.py:59-75 | every request first refreshes the token; a token failure raises before anything is sent; otherwise the Authorization header becomes the Bearer token and the request goes to base URL + endpoint |
| Sdk.NewBaseService | cookbook/sample-apps/document_summarization/sdk/accelerator.py:48-57 | creating a service fails exactly when the base URL cannot be trimmed; otherwise the new service holds the trimmed URL |
| Sdk.HealthEndpoint | cookbook/sample-apps/document_summarization/sdk/accelerator.py:78-79 | the health endpoint of a service is /<service>/service/health |
| Sdk.InvokeModelBody | cookbook/sample-apps/document_summarization/sdk/accelerator.py:85-91 | the body holds model_name, prompt and the keyword arguments, which win on a clash |
| Sdk.ChunkingJobBody | cookbook/sample-apps/document_summarization/sdk/accelerator.py:149-157 | the body holds the job id and strategy, and chunking_params exactly when it is given |
| Sdk.VectorStoreBody | cookbook/sample-apps/document_summarization/sdk/accelerator.py:199-209 | the body holds the store name and type, and description and tags each exactly when given |
| Sdk.SanitizeFilename | cookbook/sample-apps/document_summarization/sdk/accelerator.py:110-112 | the length is kept and each character outside [a-zA-Z0-9_.-] becomes '_' while the others stay |
| Sdk.SanitizeIdempotent | cookbook/sample-apps/document_summarization/sdk/accelerator.py:110-112 | a sanitized name holds only safe characters, and sanitizing it again changes nothing |
| Sdk.AvoidCharsUnsafe | services/foundations_document_processing/app.py:462-463 | no character the server refuses in a file name survives sanitizing |
| Sdk.SdkTypesAdmitted | cookbook/sample-apps/document_summarization/sdk/accelerator.py:108 | every type the SDK uploads is one the server's register_file admits |
| Sdk.SanitizeLastSegment | cookbook/sample-apps/document_summarization/sdk/accelerator.py:115-128 | sanitizing commutes with taking the last '.'-segment |
| Sdk.SanitizedNameRegisters | cookbook/sample-apps/document_summarization/sdk/accelerator.py:127-131 | a file the SDK accepts passes every file-name check of the server's register_file once sanitized |
| Sdk.UploadsFacts | cookbook/sample-apps/document_summarization/sdk/accelerator.py:126-137 | a loop that ends without error registered exactly the sanitized allowed regular files in order, every upload was answered 200, and the loop never starts the job |
| Sdk.UploadsStops | cookbook/sample-apps/document_summarization/sdk/accelerator.py:131-137 | once the loop has stopped on an error, later entries change nothing |
| Sdk.StartOnlyAfterUploads | cookbook/sample-apps/document_summarization/sdk/accelerator.py:118-141 | the job is started at most once, as the last step, and only after every eligible file was registered and every upload answered 200; a returned job id means the job was started |
| Sdk.InitiateExtractionFromFolder | cookbook/sample-apps/document_summarization/sdk/accelerator.py:118-141 | the loop over the folder makes exactly the steps, and returns exactly the result, that FolderRun describes |
| Sdk.Uploads | cookbook/sample-apps/document_summarization/sdk/accelerator.py:126-137 | at most a register and an upload step per entry, never a start, and an error stops the loop only after some step was made |
| Sdk.FolderRun | cookbook/sample-apps/document_summarization/sdk/accelerator.py:118-141 | a path that is not a directory, or a failed job creation, raises before any step; a returned job id is the created job's, and its start is the last step |

## Left out

- AdminMain.Merged: two kinds of schemas list element are refused although dict.update would merge them. A pair whose key is a number, boolean or null is refused because the model's maps have text keys. A two-entry object is refused because dict.update would read it as its two keys, in an order the model's maps do not keep.
- The SQS polling loops, the supervisor that restarts them, the executors and asyncio: each handler is one sequential method, and the semaphore is a permit counter released at the end of the handler.
- The boto3, Bedrock, OpenSearch, langchain, Redis, requests and httpx clients: their answers are parameters or outcome values, and the work they do (Textract, S3 reads and writes, embedding) is not modelled. read_s3_txt is such a read and is left out.
- The fixed-size and recursive chunkers and chunk_json's RecursiveJsonSplitter wrap langchain splitters whose behaviour is not visible; only the strategy dispatch and the error paths around them are modelled.
- JWT decoding, jwk_to_pem and the RS256 verification: validate_token_signature takes the key download, the token header and the verification as parameters.
- The copies of decode_token_without_verification and get_app_id_from_dynamodb in each service: the caller's app id is a parameter.
- base64 encoding of the Basic credentials: the request carries the "<client_id>:<client_secret>" text before encoding.
- Clocks are whole seconds, where time.time() is a float; the expiry arithmetic is otherwise the source's.
- uuid4 ids and datetime.now() are parameters; ECS metadata lookup at startup is left out.
- Floating-point request parameters are opaque reals that are only passed through or defaulted.
- Concurrent redelivery and interleaving of two handlers on the same job: redelivery is modelled as handling the same message twice in a row, and a crash as running a prefix of a plan.
- perform_vectorization is never called and is left out.
- The text of exceptions raised by libraries (raise_for_status, KeyError, strptime's ValueError, boto3 parameter validation) is approximated; only the status codes and the messages the source writes itself are exact.
- A token answer whose JSON lacks expires_in or access_token raises a KeyError in the source; the model's answer always carries both fields.
- MetricRoutes.ConvertToIso8601: reads each part as a non-empty run of ASCII digits, whereas Python's int() also accepts a sign, surrounding whitespace and underscores between digits.
- MetricRoutes.ParseYmd: refuses a space-padded day such as "2024-01- 5", which strptime's `%d` accepts.
- Python's str.lower() is modelled for ASCII letters only.
- HTTP statuses of 600 and above are treated as non-error statuses, as requests does.
- The order of a Python dict's entries in the OpenAPI document is kept as a sequence of paths and operations; a requestBody without a content entry, which raises a KeyError at startup, is not modelled.
- PromptTemplates.ListPromptTemplate: the response is a map, so the order in which the source's dict first saw each template name is not modelled.
- MetricRoutes.GroupedInvocations: the response is a map, so the order in which the source's dict first saw each model name is not modelled.
- MetricRoutes.GroupedJobs: the response is a map, so the order in which the source's dict first saw each status is not modelled.
- conf.OPENAPI_SPEC, the global that fetch_openapi_spec writes, is its result value.
- The SDK's pass-through requests (list_models, invoke_model_with_raw_input, invoke_embed, the job status, job file, file status, chunking result and job result requests, get_vector_store_status) are each one BaseService.Request with a fixed endpoint; only the bodies with optional fields are modelled separately.
- The SDK's folder upload: shutil.copy into a temporary directory (a later file can overwrite an earlier one with the same sanitized name) and the order of os.listdir are not modelled; the entries are given in order.
- The Streamlit sample apps, the Nuxt frontend and the CDK stacks are not part of this model, apart from the constants MAX_CONCURRENT_TASKS 10 and VISIBILITY_TIMEOUT 600.
- pydantic's coercion of request fields (a number sent as a string, say) is not modelled; requests arrive with their declared types.
- save_invocation_log and the other logging writes are left out.

## Findings

| source | as written | input that shows it | evidently intended | confidence | as-written member | corrected member |
|---|---|---|---|---|---|---|
| cookbook/notebooks/quickstarts/utils.py:21 | get_token refreshes through self._fetch_token, which the class does not define, so every refresh raises AttributeError | a new manager's first get_token call | refresh through _fetch_token_with_secret, the only fetch method the class has | high, not executed | QuickstartTokens.NewManagerNeverServes | QuickstartTokens.CorrectedFirstCallServes |
