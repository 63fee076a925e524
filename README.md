# VideoQnA data preparation: a Dafny model of its own decisions

The VideoQnA demo prepares a vector-search database from videos kept in blob
storage: it registers every video with the video-indexing service, waits for
indexing, stores each video's insights next to it, asks the service for
"prompt content", and loads the resulting sections into the database. Almost
all of that work happens inside cloud SDKs. This project models the few
decisions the script makes itself, with every external call turned into an
oracle input:

- `index_videos`: the id cache seeded from the cache file, and the walk over
  the blob list that skips cached names, looks each other name up, and
  uploads it when the lookup finds nothing. Python truthiness decides what
  counts as an id: `None` and `""` do not (module `IndexVideos`, over
  `PyValues.Truthy`).
- The prompt-content retry loop: five attempts per video. Statuses 202 and
  409 sleep and retry. An exception or an error status retries without
  sleeping. Any other status ends that video's loop (module `PromptContent`).
- `wait_for_videos_processing_and_save_insights`: the insights key
  `<video name>_insights.json`, and a per-video failure that does not stop
  the loop (module `Insights`).
- The stage gating of `prepare_db`: which calls happen, in which order,
  given the flags, whether the cache file exists, and which external calls
  raise (module `PrepareDb`).
- `Consts.__post_init__`: constructing the account constants fails unless
  the subscription id, the account name and the resource group are all
  truthy (module `Consts`).

Three behaviours of the code are easy to miss, and the model follows them:

- An error status in the retry loop does not propagate. `raise_for_status()`
  runs inside the same `try`, so its exception is caught and costs one
  attempt, like a 202 or a 409 but without the sleep.
- A dry run does call `create_db` (prepare_db.py:140), which can create the
  index. It skips that call only when the embeddings probe raised, because
  `embeddings_size` is then unbound.
- `index_videos` seeds its map from the cache file whenever the file exists
  (prepare_db.py:30-32). It always writes the file back (:59-60), even when
  `use_videos_ids_cache` is false.

## Model

| member | source | states |
|---|---|---|
| `Consts.NewConsts` | VideoQnA-Demo/app/backend/vi_search/vi_client/consts.py:3-14 | construction fails with ValueError when the subscription id, the account name or the resource group is falsy (`None` or empty); otherwise it yields exactly the six values passed in, and the record is valid |
| `Consts.OutcomeIgnoresUncheckedFields` | VideoQnA-Demo/app/backend/vi_search/vi_client/consts.py:5-14 | whether construction succeeds does not depend on the API version, the endpoint or the resource-manager URL |
| `Consts.ValidRoundTrip` | VideoQnA-Demo/app/backend/vi_search/vi_client/consts.py:4-14 | constructing from the fields of any valid record gives back that same record: validation neither rejects nor alters it |
| `IndexVideos.Resolve` | VideoQnA-Demo/app/backend/vi_search/prepare_db.py:42-56 | a name that resolves gets a truthy (non-empty) id: from the lookup when it is truthy, else from the upload when that is truthy |
| `IndexVideos.StepFacts` | VideoQnA-Demo/app/backend/vi_search/prepare_db.py:34-56 | one iteration looks up a name only if it is not yet in the map, uploads it only if the lookup was falsy as well, and leaves it in the map exactly when it was there or resolves |
| `IndexVideos.RunIsExpected` | VideoQnA-Demo/app/backend/vi_search/prepare_db.py:27-57 | the walk over the blobs yields the reference map: every seed entry unchanged, plus every blob name outside the seed that resolves, mapped to its resolved id |
| `IndexVideos.ExpectedFacts` | VideoQnA-Demo/app/backend/vi_search/prepare_db.py:27-57 | in the reference map, seed entries keep their values, its key set is the seed keys plus the resolved blob names, and every other entry is a listed blob name with its resolved id |
| `IndexVideos.RunFacts` | VideoQnA-Demo/app/backend/vi_search/prepare_db.py:27-57 | the same three facts, stated of the walk's result |
| `IndexVideos.RunCallCounts` | VideoQnA-Demo/app/backend/vi_search/prepare_db.py:34-56 | a seeded name is never looked up or uploaded; a resolving name gets at most one round however often it is listed; a name whose lookup finds a video is never uploaded; a failing name gets one round per occurrence |
| `IndexVideos.IndexVideos` | VideoQnA-Demo/app/backend/vi_search/prepare_db.py:25-63 | the loop computes the walk. Cached entries are kept with their values. The result's keys are the cached names plus the resolved blob names, so failed names are absent. Each new entry is a listed name with its resolved id. Lookup and upload counts per name are as in `RunCallCounts` |
| `IndexVideos.CachedThenFoundExample` | VideoQnA-Demo/app/backend/vi_search/prepare_db.py:30-45 | cache `{a.mp4: id1}` with blobs `[a.mp4, b.mp4]` and a lookup that finds `b.mp4`: the only call is that lookup, and its id is recorded beside the cached one |
| `PromptContent.Classify` | VideoQnA-Demo/app/backend/vi_search/prepare_db.py:174-189 | 202 means in progress and 409 means conflict. An exception, or a status for which `raise_for_status` raises, is a failed attempt. Every other status ends the loop |
| `PromptContent.RetryFrom` | VideoQnA-Demo/app/backend/vi_search/prepare_db.py:172-189 | with `n` attempts left, the loop makes between 1 and `n` calls and sleeps at most once per call. It ends early exactly on the first accepted answer, which is the last call. No earlier answer was accepted. Without an accepted answer it makes all `n` calls |
| `PromptContent.RetryFromSleeps` | VideoQnA-Demo/app/backend/vi_search/prepare_db.py:172-189 | the loop sleeps exactly once for each 202 or 409 answer among the calls it makes, and for no other answer |
| `PromptContent.RetryPromptContent` | VideoQnA-Demo/app/backend/vi_search/prepare_db.py:172-189 | the while loop terminates without letting an exception out. It computes `RetryFrom` with 5 attempts, makes 1 to 5 calls, and succeeds exactly when one of the first five answers is accepted. Otherwise it makes all five calls |
| `PromptContent.TotalCallsBounds` | VideoQnA-Demo/app/backend/vi_search/prepare_db.py:171-189 | when every video makes 1 to 5 calls, the total is between the number of videos and five times it |
| `PromptContent.PromptContentStage` | VideoQnA-Demo/app/backend/vi_search/prepare_db.py:171-189 | every video id gets its own fresh counter of five attempts, whatever happened to the others; the total number of calls is at most five per video |
| `PromptContent.TwoInProgressThenOk` | VideoQnA-Demo/app/backend/vi_search/prepare_db.py:176-186 | answers 202, 202, 200 give three calls, two sleeps, and an accepted end |
| `PromptContent.FiveInProgressGivesUp` | VideoQnA-Demo/app/backend/vi_search/prepare_db.py:172-179 | five 202 answers give exactly five calls and five sleeps, then the loop gives up without an exception |
| `Insights.InsightsKey` | VideoQnA-Demo/app/backend/vi_search/prepare_db.py:73 | the insights key is the video name followed by `_insights.json` |
| `Insights.InsightsKeyInjective` | VideoQnA-Demo/app/backend/vi_search/prepare_db.py:73 | distinct video names get distinct insights keys |
| `Insights.SaveInsights` | VideoQnA-Demo/app/backend/vi_search/prepare_db.py:66-79 | the loop over the videos never removes an object from the container |
| `Insights.SaveInsightsKeys` | VideoQnA-Demo/app/backend/vi_search/prepare_db.py:67-77 | the container ends with its old keys plus the insights keys of the videos whose insights were obtained; every other object is unchanged |
| `Insights.SaveInsightsStored` | VideoQnA-Demo/app/backend/vi_search/prepare_db.py:67-77 | every video whose insights were obtained has them stored under its own key, even when other videos failed (names are distinct, as dictionary keys are) |
| `Insights.SaveInsightsNothingObtained` | VideoQnA-Demo/app/backend/vi_search/prepare_db.py:67-77 | when every video's processing raised, the container is left exactly as it was and the loop still ends normally |
| `PrepareDb.DryRunProbes` | VideoQnA-Demo/app/backend/vi_search/prepare_db.py:116-149 | the probes always run the account probe and the embeddings probe (`OpenAI()` and then `get_embeddings_size`, failing when either raises). They list videos iff the account probe succeeded. They reach `create_db` iff the embeddings probe succeeded. They list documents iff `create_db` was reached and succeeded. None of them indexes, writes the cache, saves insights or adds sections; `create_db` may create the index |
| `PrepareDb.Front` | VideoQnA-Demo/app/backend/vi_search/prepare_db.py:109-192 | a normal run starts by listing the blobs and reaches the collection fetch last |
| `PrepareDb.FrontCalls` | VideoQnA-Demo/app/backend/vi_search/prepare_db.py:153-163 | the cache file is read at :156 exactly on a cache hit. Otherwise `index_videos` runs and the file is written. `index_videos` is seeded from the file exactly when the file exists. No database call happens before the collection fetch |
| `PrepareDb.CacheWrites` | VideoQnA-Demo/app/backend/vi_search/prepare_db.py:158-167 | on a miss the file is written inside `index_videos`. It is written a second time right after when the cache is enabled, and then the insights stage begins |
| `PrepareDb.DryRun` | VideoQnA-Demo/app/backend/vi_search/prepare_db.py:108-151 | a dry run lists the blobs first and returns normally (assuming the unguarded client creation and blob listing do not raise, see "## Left out"). It never indexes, writes the cache, saves insights or adds sections. It reaches `create_db` iff the embeddings probe succeeded |
| `PrepareDb.NormalRun` | VideoQnA-Demo/app/backend/vi_search/prepare_db.py:153-211 | a cache hit reads the file and skips indexing; a miss indexes. A failed collection fetch returns normally before `create_db` and `add_sections_to_db`. An exception escapes only from the last call made, which is one that failed. Sections are added without an exception iff the collection fetch and the four calls after it all succeed |
| `PrepareDb.PrepareDb` | VideoQnA-Demo/app/backend/vi_search/prepare_db.py:106-211 | without blob storage, a truthy SAS URL and a truthy container name nothing is called after the client is created at :97. Otherwise it has the dry-run and normal-run properties above, and sections are added without an exception exactly when blob storage is configured, it is not a dry run, and the collection fetch and the four calls after it all succeed |

## Left out

- Azure Blob Storage and the video-indexer client are replaced by oracle inputs. This covers the container client, blob listing and upload, and the indexer's own logic.
- `IndexVideos.IndexVideos`: `video_exists` and `upload_url_async` are functions of the blob name. A name listed twice that fails gets the same answers both times, whereas the real service could answer differently.
- `IndexVideos.IndexVideos`: the cache file's values are taken to be strings. A JSON file holding other value types is not modelled.
- JSON reading and writing, including the `Path` encoder, are serialization plumbing. The cache file is an optional input map, and the file written back is the returned map.
- `IndexVideos.IndexVideos`: `video_exists` (prepare_db.py:42) and `get_blob_client` (:39) run outside the `try` of :48, so in the code an exception from either ends `index_videos` before the cache write at :59-60 and escapes `prepare_db`. The model treats both as not raising: its lookup always answers.
- `PrepareDb.PrepareDb`: does not model exceptions from `ContainerClient.from_container_url` (prepare_db.py:108, which raises on a truthy but malformed SAS URL before any modelled call), from the lazy blob listing, from `get_sections_generator` (:205, between the account details and `create_db`), from `index_videos` (its `video_exists` lookup and `get_blob_client`, see above), from reading or writing the cache file, or from `init_video_indexer_client` (vi_client/video_indexer_client.py is not part of this model). Those calls are treated as not raising, so the final iff holds only under that assumption.
- `PrepareDb.NormalRun`: its iff about adding sections rests on the same assumption that `ContainerClient.from_container_url` (:108), `index_videos`, the cache-file calls and `get_sections_generator` (:205) do not raise.
- `PrepareDb.DryRun`: "returns normally" assumes that neither `ContainerClient.from_container_url` (:108) nor the iteration of the lazy blob listing (:113-114) raises. Both run outside any `try`: a malformed SAS URL raises at :108, and an expired or wrong token raises when the pager first fetches at :113, so in the source the dry run can end with that exception, and the model does not capture this.
- `PrepareDb.DryRunProbes`: `OpenAI()` (:131) and `get_embeddings_size` (:132) are one event, `GetEmbeddingsSize`; its failing means either call raised, and the model does not tell which.
- `Insights.SaveInsights`: waiting with its 600-second timeout, fetching the insights and uploading them are merged into one oracle per video id. It gives the JSON text stored, or nothing when any of those calls raised.
- `time.sleep(60)` and `time.time()` are wall-clock behaviour. Sleeps are counted, not timed.
- `PromptContent.Classify`: an error status is the one `raise_for_status` of the HTTP client raises for, taken as 400 to 599. That rule lives in the HTTP library, which is outside this repository.
- `PromptContent.PromptContentStage`: the ids come as a sequence in `videos_ids.values()` order. How a dictionary orders them is not modelled.
- OpenAI embeddings, the ChromaDB and Azure AI Search backends, `get_sections_generator` and section batching are foreign code. `create_db` and `add_sections_to_db` appear only as stage events.
- `print` logging, `print_env_variables`, `load_dotenv`, and `main`'s environment parsing and backend choice are I/O and configuration plumbing.
- Python truthiness is modelled for `None` and strings only. Fields of other types are not modelled.
