/** Which stages `prepare_db` (prepare_db.py) runs, and in which order, as a
    function of its flags, of whether the id cache file exists, and of which
    external calls raise. Each stage is one event; what a stage computes is
    modelled in IndexVideos, Insights and PromptContent. */
module PrepareDb {
  import opened PyValues

  /** The external calls and file operations of `prepare_db`, one per call
      site kind. */
  datatype Call =
    | ListBlobs                  // container_client.list_blobs()
    | GetAccountDetails          // client.get_account_details()
    | ListVideos                 // client.list_videos()
    | GetEmbeddingsSize          // get_embeddings_size(); in a dry run, OpenAI() and then it
    | CreateDb                   // prompt_content_db.create_db(...)
    | ListAllDocuments           // prompt_content_db.list_all_documents()
    | ReadCache                  // reading the id cache file
    | IndexVideos(seeded: bool)  // index_videos(...); `seeded`: it starts from the cache file
    | WriteCache                 // writing the id cache file
    | WaitForInsights            // wait_for_videos_processing_and_save_insights(...)
    | GeneratePromptContent      // the retry loop over generate_prompt_content_async
    | GetCollectionPromptContent // client.get_collection_prompt_content(...)
    | AddSections                // prompt_content_db.add_sections_to_db(...)

  /** The parameters of `prepare_db` that decide which stages run. */
  datatype Config = Config(
    useBlobStorage: bool,
    blobSasUrl: PyStr,
    blobContainerName: PyStr,
    dryRun: bool,
    useVideosIdsCache: bool)

  /** How a run of `prepare_db` ends: the calls made in order, and whether an
      exception escaped. */
  datatype Run = Run(calls: seq<Call>, raised: bool)

  /** The guard of the whole body: blob storage is enabled and both its URL
      and its container name are truthy. */
  predicate UsesBlobStorage(cfg: Config) {
    cfg.useBlobStorage && Truthy(cfg.blobSasUrl) && Truthy(cfg.blobContainerName)
  }

  /** Calls that store the work of a run: indexing, the id cache file, the
      saved insights and the sections added to the database. `create_db`,
      which may create an empty index, is not one of them. */
  predicate Persists(c: Call) {
    c.IndexVideos? || c == WriteCache || c == WaitForInsights || c == AddSections
  }

  /** The dry-run probes, each in its own `try`. The account probe lists the
      videos only when `get_account_details` succeeds. The embeddings probe
      is one event for `OpenAI()` followed by `get_embeddings_size()`, and
      fails when either raises. The search probe
      passes the embedding size to `create_db`, so when the embeddings probe
      raised that size is unbound and `create_db` is never reached; documents
      are listed only when `create_db` succeeds. */
  function DryRunProbes(failing: set<Call>): (r: seq<Call>)
    ensures GetAccountDetails in r && GetEmbeddingsSize in r
    ensures ListVideos in r <==> GetAccountDetails !in failing
    ensures CreateDb in r <==> GetEmbeddingsSize !in failing
    ensures ListAllDocuments in r <==> GetEmbeddingsSize !in failing && CreateDb !in failing
    ensures forall c :: c in r ==> !Persists(c)
  {
    (if GetAccountDetails in failing then [GetAccountDetails] else [GetAccountDetails, ListVideos])
    + [GetEmbeddingsSize]
    + (if GetEmbeddingsSize in failing then []
       else if CreateDb in failing then [CreateDb]
       else [CreateDb, ListAllDocuments])
  }

  /** The calls of a normal run up to the collection fetch, whose failure is
      caught. The id map is read from the cache file when the cache is
      enabled and the file exists; otherwise `index_videos` produces it,
      starting from the file whenever it exists and always writing it back,
      and a second write follows when the cache is enabled. */
  function Front(cfg: Config, cacheFileExists: bool): (r: seq<Call>)
    ensures r != [] && r[0] == ListBlobs && r[|r| - 1] == GetCollectionPromptContent
  {
    if cfg.useVideosIdsCache && cacheFileExists then
      [ListBlobs, ReadCache, WaitForInsights, GeneratePromptContent, GetCollectionPromptContent]
    else if cfg.useVideosIdsCache then
      [ListBlobs, IndexVideos(cacheFileExists), WriteCache, WriteCache,
       WaitForInsights, GeneratePromptContent, GetCollectionPromptContent]
    else
      [ListBlobs, IndexVideos(cacheFileExists), WriteCache,
       WaitForInsights, GeneratePromptContent, GetCollectionPromptContent]
  }

  /** Which calls the front of a normal run makes: the cache file is read
      at prepare_db.py:156 (`ReadCache`) exactly on a cache hit, written twice when the cache is enabled and
      missed and once when it is disabled, `index_videos` runs exactly on a
      miss and starts from the file whenever it exists, and none of the
      database or unguarded calls happens yet. */
  lemma FrontCalls(cfg: Config, cacheFileExists: bool)
    ensures ReadCache in Front(cfg, cacheFileExists) <==> cfg.useVideosIdsCache && cacheFileExists
    ensures WriteCache in Front(cfg, cacheFileExists) <==> !(cfg.useVideosIdsCache && cacheFileExists)
    ensures IndexVideos(cacheFileExists) in Front(cfg, cacheFileExists) <==> !(cfg.useVideosIdsCache && cacheFileExists)
    ensures IndexVideos(!cacheFileExists) !in Front(cfg, cacheFileExists)
    ensures GetEmbeddingsSize !in Front(cfg, cacheFileExists) && GetAccountDetails !in Front(cfg, cacheFileExists)
    ensures CreateDb !in Front(cfg, cacheFileExists) && AddSections !in Front(cfg, cacheFileExists)
  {
  }

  /** On a cache miss `index_videos` writes the id cache file, and when the
      cache is enabled a second write follows it; then the insights stage
      begins. */
  lemma CacheWrites(cfg: Config, cacheFileExists: bool)
    requires !(cfg.useVideosIdsCache && cacheFileExists)
    ensures |Front(cfg, cacheFileExists)| >= 4
    ensures Front(cfg, cacheFileExists)[1] == IndexVideos(cacheFileExists)
    ensures Front(cfg, cacheFileExists)[2] == WriteCache
    ensures Front(cfg, cacheFileExists)[3] == if cfg.useVideosIdsCache then WriteCache else WaitForInsights
  {
  }

  /** The dry-run branch: list the blobs, probe the services, return. */
  function DryRun(failing: set<Call>): (r: Run)
    ensures !r.raised && r.calls != [] && r.calls[0] == ListBlobs
    ensures forall c :: c in r.calls ==> !Persists(c)
    ensures CreateDb in r.calls <==> GetEmbeddingsSize !in failing
  {
    Run([ListBlobs] + DryRunProbes(failing), false)
  }

  /** The normal branch: the id map, the insights, the prompt content, and
      then, unless the collection fetch fails, the embedding size, the
      account details, the database and its sections, none of these four
      inside a `try`, so the first that raises ends the run with its
      exception. */
  function NormalRun(cfg: Config, cacheFileExists: bool, failing: set<Call>): (r: Run)
    ensures cfg.useVideosIdsCache && cacheFileExists ==>
              ReadCache in r.calls && WriteCache !in r.calls && IndexVideos(false) !in r.calls && IndexVideos(true) !in r.calls
    ensures !(cfg.useVideosIdsCache && cacheFileExists) ==>
              IndexVideos(cacheFileExists) in r.calls && ReadCache !in r.calls
    ensures GetCollectionPromptContent in failing ==>
              !r.raised && CreateDb !in r.calls && AddSections !in r.calls
    ensures r.raised ==> r.calls != [] && r.calls[|r.calls| - 1] in failing
    ensures (AddSections in r.calls && !r.raised) <==>
              GetCollectionPromptContent !in failing && GetEmbeddingsSize !in failing
              && GetAccountDetails !in failing && CreateDb !in failing && AddSections !in failing
  {
    var front := Front(cfg, cacheFileExists);
    FrontCalls(cfg, cacheFileExists);
    if GetCollectionPromptContent in failing then
      Run(front, false)
    else if GetEmbeddingsSize in failing then
      Run(front + [GetEmbeddingsSize], true)
    else if GetAccountDetails in failing then
      Run(front + [GetEmbeddingsSize, GetAccountDetails], true)
    else if CreateDb in failing then
      Run(front + [GetEmbeddingsSize, GetAccountDetails, CreateDb], true)
    else
      Run(front + [GetEmbeddingsSize, GetAccountDetails, CreateDb, AddSections], AddSections in failing)
  }

  /** The body of `prepare_db` after the client is created. */
  function PrepareDb(cfg: Config, cacheFileExists: bool, failing: set<Call>): (r: Run)
    // Nothing happens beyond logging unless blob storage is fully configured.
    ensures !UsesBlobStorage(cfg) ==> r == Run([], false)
    // A dry run lists the blobs and probes the services, and returns normally
    // without indexing, writing the cache, saving insights or adding sections;
    // it does reach `create_db` unless the embeddings probe failed.
    ensures UsesBlobStorage(cfg) && cfg.dryRun ==>
              !r.raised && r.calls != [] && r.calls[0] == ListBlobs && (forall c :: c in r.calls ==> !Persists(c))
              && (CreateDb in r.calls <==> GetEmbeddingsSize !in failing)
    // With the cache enabled and its file present, indexing is skipped.
    ensures UsesBlobStorage(cfg) && !cfg.dryRun && cfg.useVideosIdsCache && cacheFileExists ==>
              ReadCache in r.calls && WriteCache !in r.calls && IndexVideos(false) !in r.calls && IndexVideos(true) !in r.calls
    // Otherwise the videos are indexed, from the cache file whenever it exists.
    ensures UsesBlobStorage(cfg) && !cfg.dryRun && !(cfg.useVideosIdsCache && cacheFileExists) ==>
              IndexVideos(cacheFileExists) in r.calls && ReadCache !in r.calls
    // A failed collection fetch returns normally before the database is touched.
    ensures UsesBlobStorage(cfg) && !cfg.dryRun && GetCollectionPromptContent in failing ==>
              !r.raised && CreateDb !in r.calls && AddSections !in r.calls
    // An exception escapes only from the call that raised it, the last one made.
    ensures r.raised ==> r.calls != [] && r.calls[|r.calls| - 1] in failing
    // Sections are added and the run ends normally exactly when none of the
    // unguarded calls fails.
    ensures (AddSections in r.calls && !r.raised) <==>
              UsesBlobStorage(cfg) && !cfg.dryRun
              && GetCollectionPromptContent !in failing && GetEmbeddingsSize !in failing
              && GetAccountDetails !in failing && CreateDb !in failing && AddSections !in failing
  {
    if !UsesBlobStorage(cfg) then
      Run([], false)
    else if cfg.dryRun then
      DryRun(failing)
    else
      NormalRun(cfg, cacheFileExists, failing)
  }
}
