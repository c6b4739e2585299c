/**
 * Records of the vectorization stage: vectorization jobs and their files, and
 * the vector store and index records the admission checks consult.
 */
module VectorModels {

  /** One vectorization job: hash key vectorize_job_id; status and all four counters are required. */
  datatype VectorizationJob = VectorizationJob(
    vectorizeJobId: string,
    vectorStoreId: string,
    indexId: string,
    chunkingJobId: string,
    status: string,
    totalFileCount: int,
    queuedFiles: int,
    completedFileCount: int,
    failedFileCount: int,
    appId: string)

  /** One file of a vectorization job: hash key vectorize_job_file_id. */
  datatype VectorizationJobFile = VectorizationJobFile(
    vectorizeJobFileId: string,
    vectorizeJobId: string,
    filePath: string,
    status: string)

  /** A vector store record: hash key vector_store_id, range key app_id. */
  datatype VectorStore = VectorStore(vectorStoreId: string, storeName: string, appId: string, host: string, storeType: string)

  /** A vector index record: hash key index_id. */
  datatype VectorIndex = VectorIndex(indexId: string, vectorStoreId: string, indexName: string)
}
