/**
 * The vectorization service's routes: creating an OpenSearch Serverless
 * vector store (a short random name, three security policies and a
 * collection), starting a vectorization job for a completed chunking job (one
 * vectorize-file record and one queue message per COMPLETED chunk file), and
 * reporting an index's status.
 */
module VectorizationService {
  import Text
  import Base32
  import opened Wrappers
  import opened DocumentModels
  import opened VectorModels
  import opened Store
  import OP = OpenSearchPolicies
  import DP = DocumentProcessing
  import VJP = VectorJobProcess

  // ---------------------------------------------------------------------
  // create_opensearch_collection
  // ---------------------------------------------------------------------

  /** The store name: "lp" followed by the short id of a fresh uuid's 16 bytes. */
  function StoreName(uuidBytes: seq<Base32.Byte>): (r: string)
    ensures |r| == 2 + |Base32.ShortId(uuidBytes)| && r[..2] == "lp"
    ensures Base32.Decode(r[2..]) == uuidBytes
  {
    var id := Base32.ShortId(uuidBytes);
    Base32.ShortIdRoundTrip(uuidBytes);
    assert ("lp" + id)[2..] == id;
    "lp" + id
  }

  /** A store name has 28 characters, none of them a wildcard, and distinct uuids give distinct names. */
  lemma StoreNameFacts(a: seq<Base32.Byte>, b: seq<Base32.Byte>)
    requires |a| == 16
    ensures |StoreName(a)| == 28 && StoreName(a)[..2] == "lp"
    ensures forall i :: 2 <= i < 28 ==> ('a' <= StoreName(a)[i] <= 'z') || ('2' <= StoreName(a)[i] <= '7')
    ensures StoreName(a) == StoreName(b) ==> a == b
  {
    Base32.ShortIdShape(a);
    var id := Base32.ShortId(a);
    forall i | 2 <= i < 28 ensures ('a' <= StoreName(a)[i] <= 'z') || ('2' <= StoreName(a)[i] <= '7') {
      assert StoreName(a)[i] == id[i - 2];
    }
    if StoreName(a) == StoreName(b) {
      assert Base32.ShortId(a) == StoreName(a)[2..] == StoreName(b)[2..] == Base32.ShortId(b);
      Base32.ShortIdInjective(a, b);
    }
  }

  /** The three policies created for a store, in the order they are requested. */
  function StorePolicies(name: string, vpceId: Option<string>, roleArn: string): (r: seq<OP.PolicyRequest>)
    ensures |r| == 3 && r[0].name == name + "-ep" && r[1].name == name + "-np" && r[2].name == name + "-dp"
    ensures r[0].policyType == "encryption" && r[1].policyType == "network" && r[2].policyType == "data"
  {
    [OP.EncryptionPolicy(name + "-ep", "An encryption policy for logs collection", name + "*"),
     OP.NetworkPolicy(name + "-np", "Public access for logs collection", name + "*", false, vpceId),
     OP.DataAccessPolicy(name + "-dp", "Data access policy for logs collection", name, "", roleArn)]
  }

  /** A store name never ends in a wildcard. */
  lemma StoreNameNoWildcard(uuidBytes: seq<Base32.Byte>)
    requires |uuidBytes| == 16
    ensures var name := StoreName(uuidBytes); |name| > 0 && name[|name| - 1] != '*'
  {
    StoreNameFacts(uuidBytes, uuidBytes);
    assert StoreName(uuidBytes)[27] != '*';
  }

  /**
   * The policies of a store cover its collection (encryption, network for the collection
   * and its dashboard, data access for the role) and every index in it, and grant nothing
   * whose name does not start with the store name.
   */
  lemma StorePoliciesCover(name: string, vpceId: Option<string>, roleArn: string, indexName: string, target: string)
    requires name == [] || name[|name| - 1] != '*'
    ensures var ps := StorePolicies(name, vpceId, roleArn);
      OP.Grants(ps[0].policy, "collection", "collection/" + name) &&
      OP.Grants(ps[1].policy, "collection", "collection/" + name) &&
      OP.Grants(ps[1].policy, "dashboard", "collection/" + name) &&
      OP.Grants(ps[2].policy, "collection", "collection/" + name) &&
      OP.Grants(ps[2].policy, "index", "index/" + name + "/" + indexName)
    ensures var ps := StorePolicies(name, vpceId, roleArn);
      (OP.Grants(ps[0].policy, "collection", target) ==> "collection/" + name <= target) &&
      (OP.Grants(ps[1].policy, "collection", target) || OP.Grants(ps[1].policy, "dashboard", target) ==> "collection/" + name <= target) &&
      (OP.Grants(ps[2].policy, "collection", target) ==> target == "collection/" + name) &&
      (OP.Grants(ps[2].policy, "index", target) ==> "index/" + name + "/" <= target)
  {
    assert "collection/" + name + "" == "collection/" + name;
    OP.EncryptionCovers(name, "An encryption policy for logs collection", "", target);
    OP.NetworkCovers(name, "Public access for logs collection", vpceId, "", target);
    OP.DataAccessCovers(name, "Data access policy for logs collection", roleArn, indexName, target);
  }

  /** The collection name's part of a collection ARN: arn.split(':')[-1].split('/')[1], if there is one. */
  function ArnDomain(arn: string): (r: Option<string>)
    ensures r.Some? ==> '/' !in r.value
  {
    var parts := Text.Split(Text.LastSegment(arn, ':'), '/');
    Text.SplitPieces(Text.LastSegment(arn, ':'), '/');
    if |parts| < 2 then None else Some(parts[1])
  }

  /** The endpoint of a collection whose ARN ends in "collection/<id>". */
  lemma ArnDomainOfCollection(prefix: string, id: string)
    requires ':' !in id && '/' !in id
    ensures ArnDomain(prefix + ":collection/" + id) == Some(id)
  {
    var tail := "collection" + ['/'] + id;
    assert prefix + ":collection/" + id == prefix + [':'] + tail;
    assert ':' !in tail by {
      forall i | 0 <= i < |tail| ensures tail[i] != ':' {
        if i >= 11 {
          assert tail[i] == id[i - 11];
        }
      }
    }
    Text.LastSegmentConcat(prefix, tail, ':');
    assert '/' !in "collection" by {
      forall i | 0 <= i < 10 ensures "collection"[i] != '/' {
      }
    }
    Text.SplitPrefix("collection", id, '/');
    Text.SplitNoSep(id, '/');
  }

  /** The host recorded for a store. */
  function StoreHost(domain: string, region: string): string
  {
    "https://" + domain + "." + region + ".aoss.amazonaws.com"
  }

  /** The response of a created store. */
  datatype StoreCreated = StoreCreated(storeName: string, storeType: string, storeId: string, message: string)

  /** The requests create_opensearch_collection sends to OpenSearch Serverless. */
  datatype StoreRequests = StoreRequests(policies: seq<OP.PolicyRequest>, collection: Option<OP.CollectionRequest>)

  const StoreErrorPrefix: string := "Error creating vector store: "

  /**
   * create_opensearch_collection: an unsupported store type raises 400 inside the try, and
   * the blanket handler turns it into 500 carrying "400: Invalid store type".  An ARN without
   * a '/'-part raises IndexError, also reported as 500.  uuidBytes, arn and vectorStoreId are
   * the fresh uuid, the collection the service created, and the store record's fresh id.
   */
  method CreateOpenSearchCollection(p: Platform, appId: string, storeType: string, description: string,
                                    tags: Option<seq<map<string, string>>>, uuidBytes: seq<Base32.Byte>,
                                    vpceId: Option<string>, roleArn: string, arn: string, region: string, vectorStoreId: string)
    returns (r: Result<StoreCreated, HttpError>, sent: StoreRequests)
    modifies p
    ensures storeType != "opensearchserverless" ==>
      r == Err(HttpError(500, StoreErrorPrefix + "400: Invalid store type")) && sent == StoreRequests([], None) &&
      p.Snapshot() == old(p.Snapshot())
    ensures storeType == "opensearchserverless" ==>
      sent.policies == StorePolicies(StoreName(uuidBytes), vpceId, roleArn) &&
      sent.collection == Some(OP.CreateCollection(StoreName(uuidBytes), description, "DISABLED", tags))
    ensures storeType == "opensearchserverless" && ArnDomain(arn).None? ==>
      r == Err(HttpError(500, StoreErrorPrefix + "list index out of range")) && p.Snapshot() == old(p.Snapshot())
    ensures storeType == "opensearchserverless" && ArnDomain(arn).Some? ==>
      var name := StoreName(uuidBytes);
      r == Ok(StoreCreated(name, storeType, vectorStoreId, "Vector store created successfully")) &&
      p.Snapshot() == old(p.Snapshot()).(vectorStores := old(p.vectorStores)[(vectorStoreId, appId) :=
        VectorStore(vectorStoreId, name, appId, StoreHost(ArnDomain(arn).value, region), "opensearchserverless")])
  {
    var storeUuid := StoreName(uuidBytes);
    if storeType != "opensearchserverless" {
      return Err(HttpError(500, StoreErrorPrefix + "400: Invalid store type")), StoreRequests([], None);
    }
    var policies := StorePolicies(storeUuid, vpceId, roleArn);
    var collection := OP.CreateCollection(storeUuid, description, "DISABLED", tags);
    sent := StoreRequests(policies, Some(collection));
    var domain := ArnDomain(arn);
    if domain.None? {
      return Err(HttpError(500, StoreErrorPrefix + "list index out of range")), sent;
    }
    var host := StoreHost(domain.value, region);
    var store := VectorStore(vectorStoreId, storeUuid, appId, host, "opensearchserverless");
    p.vectorStores := p.vectorStores[(vectorStoreId, appId) := store];
    r := Ok(StoreCreated(storeUuid, storeType, vectorStoreId, "Vector store created successfully"));
  }

  /** Every store record sits under its own app id, as the table's (vector_store_id, app_id) key says. */
  predicate StoresKeyed(s: State)
  {
    forall k :: k in s.vectorStores ==> s.vectorStores[k].appId == k.1 && s.vectorStores[k].vectorStoreId == k.0
  }

  /** Creating a store keeps every store under its own key. */
  lemma CreateKeepsStoresKeyed(s: State, appId: string, vectorStoreId: string, name: string, host: string)
    requires StoresKeyed(s)
    ensures StoresKeyed(s.(vectorStores := s.vectorStores[(vectorStoreId, appId) := VectorStore(vectorStoreId, name, appId, host, "opensearchserverless")]))
  {
  }

  // ---------------------------------------------------------------------
  // vectorize_and_store_chunk
  // ---------------------------------------------------------------------

  /** The vectorization job create_vectorize_job_entry saves: STARTED with every counter 0. */
  function NewVectorizeJob(vectorizeJobId: string, vectorStoreId: string, indexId: string, chunkingJobId: string, appId: string): (j: VectorizationJob)
    ensures j.status == "STARTED" && j.vectorizeJobId == vectorizeJobId && j.appId == appId
    ensures j.totalFileCount == 0 && j.queuedFiles == 0 && j.completedFileCount == 0 && j.failedFileCount == 0
  {
    VectorizationJob(vectorizeJobId, vectorStoreId, indexId, chunkingJobId, "STARTED", 0, 0, 0, 0, appId)
  }

  /** The chunk-file records of a chunking job, as the chunking_job_id index finds them. */
  function ChunkFileKeys(files: map<string, ChunkingJobFile>, chunkingJobId: string): set<string>
  {
    set k | k in files && files[k].chunkingJobId == chunkingJobId
  }

  /** vectorize_and_store_chunk's checks, in order; the second chunk-job lookup repeats the first and is not repeated here. */
  function VectorizeCheck(s: State, appId: string, chunkingJobId: string, indexId: string): (r: Option<HttpError>)
    ensures r.Some? ==> r.value.status in {400, 403, 404}
    ensures r.None? ==>
      chunkingJobId in s.chunkingJobs && s.chunkingJobs[chunkingJobId].appId == appId &&
      s.chunkingJobs[chunkingJobId].status == "COMPLETED" && indexId in s.vectorIndexes &&
      ChunkFileKeys(s.chunkingFiles, chunkingJobId) != {}
  {
    if chunkingJobId !in s.chunkingJobs then Some(HttpError(404, "Chunk job not found"))
    else if s.chunkingJobs[chunkingJobId].appId != appId then Some(HttpError(403, "Chunk job does not belong to the app"))
    else if indexId !in s.vectorIndexes then Some(HttpError(404, "Index not found"))
    else if (s.vectorIndexes[indexId].vectorStoreId, appId) !in s.vectorStores then Some(HttpError(404, "Store not found"))
    else if s.vectorStores[(s.vectorIndexes[indexId].vectorStoreId, appId)].appId != appId then
      Some(HttpError(403, "Vector Index does not belong to the app"))
    else if s.chunkingJobs[chunkingJobId].status != "COMPLETED" then Some(HttpError(400, "Chunk job is not completed"))
    else if ChunkFileKeys(s.chunkingFiles, chunkingJobId) == {} then Some(HttpError(400, "No chunk files found"))
    else None
  }

  /**
   * A job is started only for the caller's own COMPLETED chunking job with at least one chunk
   * file, and an index whose store belongs to the caller.  Because stores are keyed by app id,
   * the "does not belong" check on the store never fires.
   */
  lemma VectorizeGate(s: State, appId: string, chunkingJobId: string, indexId: string)
    requires StoresKeyed(s)
    ensures var r := VectorizeCheck(s, appId, chunkingJobId, indexId);
      (r.None? <==> chunkingJobId in s.chunkingJobs && s.chunkingJobs[chunkingJobId].appId == appId &&
                    s.chunkingJobs[chunkingJobId].status == "COMPLETED" &&
                    indexId in s.vectorIndexes && (s.vectorIndexes[indexId].vectorStoreId, appId) in s.vectorStores &&
                    ChunkFileKeys(s.chunkingFiles, chunkingJobId) != {}) &&
      r != Some(HttpError(403, "Vector Index does not belong to the app")) &&
      (r.Some? ==> r.value.status in {400, 403, 404})
  {
  }

  /** The message sent for one vectorize-file record. */
  function VectorMessageFor(chunkingJobId: string, indexId: string, storeId: string, host: string, filePath: string,
                            appId: string, fileId: string, vectorizeJobId: string, indexName: string): VectorMessage
  {
    VectorMessage(map["chunking_job_id" := chunkingJobId, "index_id" := indexId, "vector_store_id" := storeId,
                      "host" := host, "file_path" := filePath, "app_id" := appId, "file_id" := fileId,
                      "vectorize_job_id" := vectorizeJobId, "index_name" := indexName])
  }

  /** What the loop sends for the chunk files keys, in order: the i-th file gets the fresh id freshId(i). */
  datatype Target = Target(chunkingJobId: string, indexId: string, storeId: string, host: string, appId: string,
                           vectorizeJobId: string, indexName: string)

  function Records(files: map<string, ChunkingJobFile>, keys: seq<string>, t: Target, freshId: nat -> string): (r: seq<VectorizationJobFile>)
    requires forall k :: k in keys ==> k in files
    ensures |r| == CompletedCount(files, keys)
  {
    if keys == [] then []
    else
      var i := |keys| - 1;
      Records(files, keys[..i], t, freshId) +
      (if files[keys[i]].status == "COMPLETED" then [VectorizationJobFile(freshId(i), t.storeId, files[keys[i]].filePath, "QUEUED")] else [])
  }

  function Messages(files: map<string, ChunkingJobFile>, keys: seq<string>, t: Target, freshId: nat -> string): (r: seq<VectorMessage>)
    requires forall k :: k in keys ==> k in files
    ensures |r| == CompletedCount(files, keys)
  {
    if keys == [] then []
    else
      var i := |keys| - 1;
      Messages(files, keys[..i], t, freshId) +
      (if files[keys[i]].status == "COMPLETED" then
         [VectorMessageFor(t.chunkingJobId, t.indexId, t.storeId, t.host, files[keys[i]].filePath, t.appId, freshId(i), t.vectorizeJobId, t.indexName)]
       else [])
  }

  /** The number of COMPLETED chunk files among keys. */
  function CompletedCount(files: map<string, ChunkingJobFile>, keys: seq<string>): (n: nat)
    requires forall k :: k in keys ==> k in files
    ensures n <= |keys|
  {
    if keys == [] then 0
    else CompletedCount(files, keys[..|keys| - 1]) + (if files[keys[|keys| - 1]].status == "COMPLETED" then 1 else 0)
  }

  /** The vectorize-file table after saving the records in order. */
  function SaveVectorFiles(files: map<string, VectorizationJobFile>, records: seq<VectorizationJobFile>): (r: map<string, VectorizationJobFile>)
  {
    if records == [] then files
    else SaveVectorFiles(files, records[..|records| - 1])[records[|records| - 1].vectorizeJobFileId := records[|records| - 1]]
  }

  /**
   * One record and one message per COMPLETED chunk file, and no more: every message carries
   * all the keys the vectorization worker reads, names the new job and its record's id, and
   * every record is QUEUED under the store id (not the job id).
   */
  lemma {:induction false} SentPerCompletedFile(files: map<string, ChunkingJobFile>, keys: seq<string>, t: Target, freshId: nat -> string)
    requires forall k :: k in keys ==> k in files
    ensures var records := Records(files, keys, t, freshId);
      var messages := Messages(files, keys, t, freshId);
      |records| == |messages| == CompletedCount(files, keys) &&
      forall j :: 0 <= j < |messages| ==>
        VJP.WellFormed(messages[j]) &&
        messages[j].body["vectorize_job_id"] == t.vectorizeJobId && messages[j].body["app_id"] == t.appId &&
        messages[j].body["file_id"] == records[j].vectorizeJobFileId &&
        messages[j].body["file_path"] == records[j].filePath &&
        records[j].status == "QUEUED" && records[j].vectorizeJobId == t.storeId
    decreases |keys|
  {
    if keys != [] {
      var i := |keys| - 1;
      SentPerCompletedFile(files, keys[..i], t, freshId);
    }
  }

  /** If some chunk file is not COMPLETED, fewer messages are sent than the job's total_file_count. */
  lemma {:induction false} FewerMessagesThanFiles(files: map<string, ChunkingJobFile>, keys: seq<string>)
    requires forall k :: k in keys ==> k in files
    ensures CompletedCount(files, keys) == |keys| <==> forall j :: 0 <= j < |keys| ==> files[keys[j]].status == "COMPLETED"
    decreases |keys|
  {
    if keys != [] {
      var i := |keys| - 1;
      FewerMessagesThanFiles(files, keys[..i]);
      assert forall j :: 0 <= j < i ==> keys[..i][j] == keys[j];
    }
  }

  /** The store after vectorize_and_store_chunk started a job for the chunk files keys. */
  function Vectorized(s: State, t: Target, keys: seq<string>, freshId: nat -> string): State
    requires forall k :: k in keys ==> k in s.chunkingFiles
  {
    s.(vectorJobs := s.vectorJobs[t.vectorizeJobId :=
         NewVectorizeJob(t.vectorizeJobId, t.storeId, t.indexId, t.chunkingJobId, t.appId).(totalFileCount := |keys|)],
       vectorFiles := SaveVectorFiles(s.vectorFiles, Records(s.chunkingFiles, keys, t, freshId)),
       vectorQueue := s.vectorQueue + multiset(Messages(s.chunkingFiles, keys, t, freshId)))
  }

  /** The response of a started job. */
  datatype JobStarted = JobStarted(vectorizeJobId: string, vectorStoreId: string, indexId: string, chunkingJobId: string,
                                   totalFileCount: int, completedFileCount: int, failedFileCount: int, status: string)

  /** One more chunk file adds at most one record and one message. */
  lemma SendStep(files: map<string, ChunkingJobFile>, keys: seq<string>, i: int, t: Target, freshId: nat -> string)
    requires forall k :: k in keys ==> k in files
    requires 0 <= i < |keys|
    ensures var item := files[keys[i]];
      var record := VectorizationJobFile(freshId(i), t.storeId, item.filePath, "QUEUED");
      var message := VectorMessageFor(t.chunkingJobId, t.indexId, t.storeId, t.host, item.filePath, t.appId, freshId(i), t.vectorizeJobId, t.indexName);
      Records(files, keys[..i + 1], t, freshId) == Records(files, keys[..i], t, freshId) + (if item.status == "COMPLETED" then [record] else []) &&
      Messages(files, keys[..i + 1], t, freshId) == Messages(files, keys[..i], t, freshId) + (if item.status == "COMPLETED" then [message] else [])
  {
    assert keys[..i + 1][..i] == keys[..i];
  }

  /** Saving one more record updates its id. */
  lemma SaveStep(files: map<string, VectorizationJobFile>, records: seq<VectorizationJobFile>, record: VectorizationJobFile)
    ensures SaveVectorFiles(files, records + [record]) == SaveVectorFiles(files, records)[record.vectorizeJobFileId := record]
  {
    assert (records + [record])[..|records|] == records;
  }

  /** The loop over the chunk files: for each COMPLETED one, save its record, then send its message. */
  method SendChunkFiles(p: Platform, keys: seq<string>, t: Target, freshId: nat -> string)
    requires forall k :: k in keys ==> k in p.chunkingFiles
    modifies p`vectorFiles, p`vectorQueue
    ensures p.vectorFiles == SaveVectorFiles(old(p.vectorFiles), Records(old(p.chunkingFiles), keys, t, freshId))
    ensures p.vectorQueue == old(p.vectorQueue) + multiset(Messages(old(p.chunkingFiles), keys, t, freshId))
  {
    ghost var s0 := p.Snapshot();
    var files := p.chunkingFiles;
    var i := 0;
    while i < |keys|
      invariant 0 <= i <= |keys|
      invariant p.vectorFiles == SaveVectorFiles(s0.vectorFiles, Records(files, keys[..i], t, freshId))
      invariant p.vectorQueue == s0.vectorQueue + multiset(Messages(files, keys[..i], t, freshId))
    {
      SendStep(files, keys, i, t, freshId);
      var item := files[keys[i]];
      if item.status == "COMPLETED" {
        var record := VectorizationJobFile(freshId(i), t.storeId, item.filePath, "QUEUED");
        SaveStep(s0.vectorFiles, Records(files, keys[..i], t, freshId), record);
        assert Records(files, keys[..i + 1], t, freshId) == Records(files, keys[..i], t, freshId) + [record];
        p.vectorFiles := p.vectorFiles[record.vectorizeJobFileId := record];
        var message := VectorMessageFor(t.chunkingJobId, t.indexId, t.storeId, t.host, item.filePath, t.appId,
                                        record.vectorizeJobFileId, t.vectorizeJobId, t.indexName);
        Enqueue(s0.vectorQueue, Messages(files, keys[..i], t, freshId), message);
        p.vectorQueue := p.vectorQueue + multiset{message};
        assert Messages(files, keys[..i + 1], t, freshId) == Messages(files, keys[..i], t, freshId) + [message];
      } else {
        assert Records(files, keys[..i + 1], t, freshId) == Records(files, keys[..i], t, freshId);
        assert Messages(files, keys[..i + 1], t, freshId) == Messages(files, keys[..i], t, freshId);
      }
      i := i + 1;
    }
    assert keys[..|keys|] == keys;
  }

  /**
   * vectorize_and_store_chunk: checks the request in order; then creates the job (vectorizeJobId
   * is its fresh uuid) with total_file_count the number of chunk files, and sends one message per
   * COMPLETED one.  keys is the order the query lists the chunk files in.
   */
  method VectorizeAndStoreChunk(p: Platform, appId: string, chunkingJobId: string, indexId: string,
                                vectorizeJobId: string, freshId: nat -> string)
    returns (r: Result<JobStarted, HttpError>, keys: seq<string>, t: Target)
    modifies p`vectorJobs, p`vectorFiles, p`vectorQueue
    ensures var c := VectorizeCheck(old(p.Snapshot()), appId, chunkingJobId, indexId);
      (c.Some? ==> r == Err(c.value) && p.Snapshot() == old(p.Snapshot())) &&
      (c.None? ==>
        DP.Enumerates(keys, ChunkFileKeys(old(p.chunkingFiles), chunkingJobId)) &&
        (forall k :: k in keys ==> k in old(p.chunkingFiles)) &&
        t.vectorizeJobId == vectorizeJobId && t.appId == appId && t.chunkingJobId == chunkingJobId && t.indexId == indexId &&
        t.storeId == old(p.vectorStores)[(old(p.vectorIndexes)[indexId].vectorStoreId, appId)].vectorStoreId &&
        r == Ok(JobStarted(vectorizeJobId, t.storeId, indexId, chunkingJobId, |keys|, 0, 0, "STARTED")) &&
        p.Snapshot() == Vectorized(old(p.Snapshot()), t, keys, freshId))
  {
    keys := [];
    t := Target("", "", "", "", "", "", "");
    var check := VectorizeCheck(p.Snapshot(), appId, chunkingJobId, indexId);
    if check.Some? {
      return Err(check.value), keys, t;
    }
    var index := p.vectorIndexes[indexId];
    var store := p.vectorStores[(index.vectorStoreId, appId)];
    var chunkFiles := DP.Enumerate(ChunkFileKeys(p.chunkingFiles, chunkingJobId));
    keys := chunkFiles;
    t := Target(chunkingJobId, indexId, store.vectorStoreId, store.host, appId, vectorizeJobId, index.indexName);
    StartJob(p, chunkFiles, t, freshId);
    r := Ok(JobStarted(vectorizeJobId, store.vectorStoreId, indexId, chunkingJobId, |chunkFiles|, 0, 0, "STARTED"));
  }

  /** The writes of a started job: the job row, created and then given its total_file_count, then the loop over the chunk files. */
  method StartJob(p: Platform, keys: seq<string>, t: Target, freshId: nat -> string)
    requires forall k :: k in keys ==> k in p.chunkingFiles
    modifies p`vectorJobs, p`vectorFiles, p`vectorQueue
    ensures p.Snapshot() == Vectorized(old(p.Snapshot()), t, keys, freshId)
  {
    var job := NewVectorizeJob(t.vectorizeJobId, t.storeId, t.indexId, t.chunkingJobId, t.appId);
    Overwrite(p.vectorJobs, t.vectorizeJobId, job, job.(totalFileCount := |keys|));
    p.vectorJobs := p.vectorJobs[t.vectorizeJobId := job];
    job := job.(totalFileCount := |keys|);
    p.vectorJobs := p.vectorJobs[t.vectorizeJobId := job];
    SendChunkFiles(p, keys, t, freshId);
  }

  /**
   * A message sent for a job names that job: handled successfully, the worker marks the
   * record it names COMPLETED and counts it on this job; a failure counts it on the job whose
   * id is the app id instead.
   */
  lemma SentMessageTargetsJob(files: map<string, ChunkingJobFile>, keys: seq<string>, t: Target, freshId: nat -> string, j: int)
    requires forall k :: k in keys ==> k in files
    requires 0 <= j < CompletedCount(files, keys)
    ensures var m := Messages(files, keys, t, freshId)[j];
      var id := Records(files, keys, t, freshId)[j].vectorizeJobFileId;
      VJP.Plan(m, Success) == [VJP.ExtendVisibility, VJP.DeleteMessage(m), VJP.UpdateFile(id, "COMPLETED"),
                               VJP.UpdateJob(t.vectorizeJobId, "COMPLETED"), VJP.ReleasePermit] &&
      VJP.Plan(m, FailInside) == [VJP.ExtendVisibility, VJP.UpdateFile(id, "FAILED"), VJP.UpdateJob(t.appId, "FAILED"), VJP.ReleasePermit]
  {
    SentPerCompletedFile(files, keys, t, freshId);
  }

  // ---------------------------------------------------------------------
  // get_opensearch_index_status
  // ---------------------------------------------------------------------

  /**
   * get_opensearch_index_status: 404 for a missing index or a store of another app;
   * otherwise ACTIVE when the index lookup returns and NOT_FOUND_OR_READY when it raises.
   */
  function IndexStatus(s: State, appId: string, indexId: string, lookupRaises: bool): (r: Result<(string, string), HttpError>)
    ensures r.Err? ==> r.error.status == 404
    ensures r.Ok? ==> r.value.0 == indexId && (r.value.1 == "ACTIVE" <==> !lookupRaises)
    ensures r.Ok? <==> indexId in s.vectorIndexes && (s.vectorIndexes[indexId].vectorStoreId, appId) in s.vectorStores
  {
    if indexId !in s.vectorIndexes then Err(HttpError(404, "Index not found"))
    else if (s.vectorIndexes[indexId].vectorStoreId, appId) !in s.vectorStores then Err(HttpError(404, "Store not found"))
    else if lookupRaises then Ok((indexId, "NOT_FOUND_OR_READY"))
    else Ok((indexId, "ACTIVE"))
  }
}
