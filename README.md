# matchengine core in Dafny

This project models four parts of matchengine-V2, the engine that matches clinical and genomic records against
the eligibility criteria of clinical trials:

- **Query and criteria types** (`matchengine/typing/matchengine_types.py`). `MatchCriterion`, `QueryPart`,
  `QueryNode` and `QueryTransformerResult` are classes whose fields are updated in place. The model keeps their
  memoised hashes, and it proves when those caches agree with the content and when they do not. It also covers
  the merged raw query and the first-part-with-key lookups.
- **Task handlers** (`matchengine/internals/utilities/task_utils.py`). The engine the handlers change is a
  class:
  - the task queue is kept as the log of its operations (`put` and `task_done`), in order;
  - `matches` is a nested map, and `queue_task_count` a counter;
  - the database writes the handlers ask for are logged too.

  Every database answer and every plugin hook is a parameter.
- **Transformer configuration** (`matchengine/internals/match_criteria_transform.py`). The constructor reads
  the configuration and the listings of the resource directories:
  - it fills in defaults and builds the projections;
  - it validates the custom trial-status key and normalises its accrual values;
  - it keeps the level, suspension, internal-id and code mapping constants.
- **Oncotree subtype mapping** (`matchengine/scratch.py`). The subtype closure is built row by row. Then the
  empty label is removed and the `_LIQUID_` and `_SOLID_` groups are derived.

Modules:

| file | module |
|---|---|
| `wrappers.dfy` | `Option` and `Result` |
| `json.dfy` | JSON/BSON-like values and `dict.get` |
| `text.dfy` | Python's `strip()`, `lower()` and `split(c)[0]` |
| `query_model.dfy` | `QueryModel` |
| `task_utils.dfy` | `TaskUtils` |
| `criteria_transform.dfy` | `CriteriaTransform` |
| `oncotree.dfy` | `Oncotree` |

`nested_object_hash` is not part of this model. It is a function value `hasher`, held by every object that
hashes and passed to every specification function that needs it. Deep copies are value semantics: queries are
Dafny maps.

## Model

| member | source | states |
|---|---|---|
| Json.Get | matchengine/internals/match_criteria_transform.py:86-88 | `d.get(key, default)`: the stored value when the key is present, even when it is null; otherwise the default |
| Text.Strip | matchengine/scratch.py:15 | `strip()`: the result is a slice of the input, after exactly its leading whitespace; everything cut off is whitespace; the result neither starts nor ends with whitespace |
| Text.Lower | matchengine/internals/match_criteria_transform.py:106 | `lower()`: same length; each ASCII capital becomes its small letter and every other character is kept |
| Text.StripOfStripped | matchengine/internals/match_criteria_transform.py:106 | a string with no whitespace at either end is its own `strip()` |
| Text.StripOfLowerIsLower | matchengine/internals/match_criteria_transform.py:106 | `s.lower().strip()` contains no ASCII capital |
| Text.LowerHasNoCapitals | matchengine/internals/match_criteria_transform.py:106 | `lower()` leaves no ASCII capital letter in the string |
| Text.SliceHasNoCapitals | matchengine/internals/match_criteria_transform.py:106 | any slice of a string without capitals has none either, so stripping keeps a lowered string lowered |
| Text.LowerOfLowered | matchengine/internals/match_criteria_transform.py:106 | a string without ASCII capitals is its own `lower()` |
| Text.BeforeFirst | matchengine/scratch.py:15 | `split(sep)[0]`: the longest prefix without `sep`, followed in the input by `sep` or by nothing |
| QueryModel.CriterionDocument | matchengine/typing/matchengine_types.py:136-139 | the document `MatchCriterion.hash` digests: the criteria dicts of the path under `query`, depths left out |
| QueryModel.CriteriaMaps | matchengine/typing/matchengine_types.py:136-139 | the hashed list holds the `criteria` map of each criteria, in order, one per criteria |
| QueryModel.CriterionDocumentIff | matchengine/typing/matchengine_types.py:136-139 | two criteria lists give the same hashed document exactly when their ordered criteria maps are equal |
| QueryModel.CriterionHashIgnoresDepth | matchengine/typing/matchengine_types.py:136-139 | lists that differ only in `depth` hash equal |
| QueryModel.MatchCriterion.constructor | matchengine/typing/matchengine_types.py:125-130 | stores the list, nothing memoised; the cache invariant holds |
| QueryModel.MatchCriterion.AddCriteria | matchengine/typing/matchengine_types.py:132-134 | appends exactly the one criteria at the end and clears the memo; the invariant is kept |
| QueryModel.MatchCriterion.Hash | matchengine/typing/matchengine_types.py:136-139 | returns the memo when there is one, and it always equals the hash of the current criteria list; afterwards the result is memoised |
| QueryModel.QueryPart.constructor | matchengine/typing/matchengine_types.py:148-160 | stores the query, flags and the given (possibly stale) hash as given |
| QueryModel.QueryPart.Hash | matchengine/typing/matchengine_types.py:162-165 | returns the memo if set, else the hash of the current query, and memoises it |
| QueryModel.QueryPart.SetQueryAttr | matchengine/typing/matchengine_types.py:167-172 | changes only that key of the query and leaves a memoised hash in place, so `hash()` keeps returning the old value |
| QueryModel.QueryPart.Copy | matchengine/typing/matchengine_types.py:174-185 | a fresh part with equal query, flags and memoised hash |
| QueryModel.Merge | matchengine/typing/matchengine_types.py:232-238 | the dict comprehension over the rendered parts, a later part overriding an earlier one on a shared key |
| QueryModel.MergeKeys | matchengine/typing/matchengine_types.py:232-238 | a key is in the merged query exactly when some rendered part has it; parts that are not rendered contribute nothing |
| QueryModel.MergeLastWins | matchengine/typing/matchengine_types.py:232-238 | the value of a key comes from the last rendered part that has it |
| QueryModel.ViewsOf | matchengine/typing/matchengine_types.py:232-238 | the parts' queries and render flags, in order |
| QueryModel.NodeDocument | matchengine/typing/matchengine_types.py:217-224 | the document `QueryNode.hash` digests: the part hashes under `_tmp1` and the exclusion flag under `_tmp2` |
| QueryModel.HashesOf | matchengine/typing/matchengine_types.py:217-224 | the hash each part would report, in order |
| QueryModel.NodeDocumentIff | matchengine/typing/matchengine_types.py:217-224 | two nodes give the same hashed document exactly when their part hashes and exclusions are equal |
| QueryModel.QueriesOf | matchengine/typing/matchengine_types.py:259-263 | the parts' queries, in order |
| QueryModel.FirstWithKey | matchengine/typing/matchengine_types.py:259-263 | None exactly when no query has the key; otherwise the first index whose query has it |
| QueryModel.ValueByKey | matchengine/typing/matchengine_types.py:265-268 | None (not `default`) exactly when no part has the key; otherwise that part's value for the key |
| QueryModel.AnyFlag | matchengine/typing/matchengine_types.py:270-272 | true exactly when some flag is set |
| QueryModel.McqFlagsOf | matchengine/typing/matchengine_types.py:270-272 | the parts' `mcq_invalidating` flags, in order |
| QueryModel.QueryNode.constructor | matchengine/typing/matchengine_types.py:195-215 | stores every argument as given, caches included |
| QueryModel.QueryNode.Hash | matchengine/typing/matchengine_types.py:217-224 | returns the memo if set, else the hash of the part hashes and the exclusion, and memoises it; when the node had no memo every part ends with a memoised hash, and when it had one the parts are left untouched |
| QueryModel.QueryNode.AddQueryPart | matchengine/typing/matchengine_types.py:226-230 | appends the part and resets the three caches; `is_finalized` is unchanged |
| QueryModel.QueryNode.ExtractRawQuery | matchengine/typing/matchengine_types.py:232-238 | a key is in the raw query exactly when some rendered part has it |
| QueryModel.QueryNode.ExtractRawQueryCached | matchengine/typing/matchengine_types.py:240-246 | a finalised node memoises the merged query on first use and returns the memo afterwards; otherwise the query is recomputed and the memo is untouched |
| QueryModel.QueryNode.RawQueryHash | matchengine/typing/matchengine_types.py:248-254 | returns the memo if set; fails when there is none and the node is not finalised; otherwise hashes the (memoised) merged query and memoises that hash |
| QueryModel.QueryNode.Finalize | matchengine/typing/matchengine_types.py:256-257 | sets `is_finalized` and nothing else |
| QueryModel.QueryNode.GetQueryPartByKey | matchengine/typing/matchengine_types.py:259-263 | None exactly when no part's query has the key; otherwise a part that has it, the first one |
| QueryModel.QueryNode.GetQueryPartValueByKey | matchengine/typing/matchengine_types.py:265-268 | None exactly when no part has the key; otherwise a value from a part holding the key |
| QueryModel.QueryNode.McqInvalidating | matchengine/typing/matchengine_types.py:270-272 | true exactly when some part is MCQ-invalidating |
| QueryModel.QueryNode.Copy | matchengine/typing/matchengine_types.py:274-286 | a fresh node with fresh copies of each part and all fields and caches equal |
| QueryModel.QueryTransformerResult.Empty | matchengine/typing/matchengine_types.py:476-482 | a container with no results |
| QueryModel.QueryTransformerResult.Create | matchengine/typing/matchengine_types.py:476-489 | fails exactly when a clause is given without `negate`; with no clause the results are empty; otherwise they hold one fresh part with that clause and flags |
| QueryModel.QueryTransformerResult.AddResult | matchengine/typing/matchengine_types.py:491-498 | appends exactly one fresh part, rendered and not MCQ-invalidating by default, and keeps the earlier results |
| TaskUtils.Recover | matchengine/internals/utilities/task_utils.py:52-69 | the `except` branch shared by the handlers: a retryable error class puts the same task back and acknowledges it (acknowledging first for `AutoReconnect` where the handler does), any other class re-raises with nothing put back |
| TaskUtils.LogAppend | matchengine/internals/utilities/task_utils.py:50-51 | the puts and acknowledgements of two runs of queue operations add up |
| TaskUtils.RecoverRetries | matchengine/internals/utilities/task_utils.py:52-69 | a retryable error re-enqueues exactly the same task once and acknowledges once; any other error escapes with nothing put back |
| TaskUtils.PutsPair | matchengine/internals/utilities/task_utils.py:52-69 | the two queue operations a retry adds (a put and a `task_done`, in either order) put back exactly that task and acknowledge exactly once |
| TaskUtils.Redirect | matchengine/internals/utilities/task_utils.py:40-41 | only the `trial_match` key is redirected |
| TaskUtils.FirstKeys | matchengine/internals/utilities/task_utils.py:44-47 | the existing index names are exactly the first keys of the index specs; a spec with no key raises |
| TaskUtils.MissingIndices | matchengine/internals/utilities/task_utils.py:48 | an index is missing exactly when it is desired and no existing spec has it as first key |
| TaskUtils.UpdateTasksAdd | matchengine/internals/utilities/task_utils.py:49-50 | one more missing index adds exactly one build task |
| TaskUtils.ExistingIndexNames | matchengine/internals/utilities/task_utils.py:44-47 | the loop computes the first-key set |
| TaskUtils.CollectionPlan | matchengine/internals/utilities/task_utils.py:40-50 | one configured collection: redirect `trial_match`, list its indexes, and plan one build per missing index, or the error that stops the scan |
| TaskUtils.IndexPlan | matchengine/internals/utilities/task_utils.py:38-52 | the scan of the configured collections in order, stopping at the first error with the builds planned so far |
| TaskUtils.CheckIndicesPlan | matchengine/internals/utilities/task_utils.py:38-52 | a config without `indices` raises before anything is enqueued; otherwise the scan of its collections |
| TaskUtils.IndexPlanSnoc | matchengine/internals/utilities/task_utils.py:39-50 | scanning one more collection adds that collection's builds, or stops at its error |
| TaskUtils.IndexPlanStops | matchengine/internals/utilities/task_utils.py:38-52 | once a collection raises, no later collection is scanned |
| TaskUtils.IndexPlanOnlyBuilds | matchengine/internals/utilities/task_utils.py:49-50 | the index check enqueues nothing but index builds |
| TaskUtils.IndexPlanTasks | matchengine/internals/utilities/task_utils.py:39-50 | a build of index i on c is enqueued exactly when some configured entry for c (after redirecting) desires i and no existing index of c has i as first key |
| TaskUtils.CollectionPlanTasks | matchengine/internals/utilities/task_utils.py:40-50 | for one collection entry, a build of index `i` on collection `c` is enqueued exactly when `c` is that entry's (redirected) collection and `i` is one of its missing indexes |
| TaskUtils.WantedSnoc | matchengine/internals/utilities/task_utils.py:39-50 | an index build is wanted by the whole list of collections exactly when it is wanted by all but the last, or by the last one |
| TaskUtils.HashInput | matchengine/internals/utilities/task_utils.py:147 | the fields of a match document that its hash covers: all but `hash` and `is_disabled` |
| TaskUtils.MatchDocument | matchengine/internals/utilities/task_utils.py:143-149 | the finished match document: `sort_order` from the plugin, then `hash` over the other fields, then `_me_id` |
| TaskUtils.HashInputUpdate | matchengine/internals/utilities/task_utils.py:147 | setting a key leaves the hashed fields alone exactly when the key is `hash`, `is_disabled` or already holds that value |
| TaskUtils.HashInputRemove | matchengine/internals/utilities/task_utils.py:147 | removing a key leaves the hashed fields alone exactly when it is `hash`, `is_disabled` or absent |
| TaskUtils.MatchDocumentHash | matchengine/internals/utilities/task_utils.py:143-149 | the finished document keeps the plugin fields, adds `sort_order`, `hash` and `_me_id`, and its hash covers every field but `hash`, `is_disabled` and `_me_id` |
| TaskUtils.MatchDocumentHashIgnores | matchengine/internals/utilities/task_utils.py:145-148 | documents that differ only in `hash`/`is_disabled` and sort alike get equal hashes |
| TaskUtils.ReasonDocuments | matchengine/internals/utilities/task_utils.py:129-149 | one finished document per reason |
| TaskUtils.Documents | matchengine/internals/utilities/task_utils.py:128-149 | the finished documents of every reason of every sample, in order |
| TaskUtils.DocumentsCount | matchengine/internals/utilities/task_utils.py:128-131 | there is exactly one finished document per reason, summed over all samples |
| TaskUtils.FileDocument | matchengine/internals/utilities/task_utils.py:130-153 | filing one document: the count grows first, a missing or unhashable trial id raises, `setdefault` creates the trial entry, then a missing or unhashable `sample_id` raises, else the document is appended |
| TaskUtils.FileAll | matchengine/internals/utilities/task_utils.py:128-153 | filing documents in order, stopping at the first that raises |
| TaskUtils.FileAllConcat | matchengine/internals/utilities/task_utils.py:128-153 | filing two runs of documents is filing the first and then the second, unless the first raises |
| TaskUtils.FileAllStops | matchengine/internals/utilities/task_utils.py:128-160 | after a document raises nothing more is filed |
| TaskUtils.BySample | matchengine/internals/utilities/task_utils.py:151-153 | the documents of one sample, in order, never more than all of them |
| TaskUtils.FileAllFails | matchengine/internals/utilities/task_utils.py:151-153 | filing raises exactly when there is something to file and the trial id is missing or unhashable, or some document lacks a hashable `sample_id` |
| TaskUtils.FileDocumentFiles | matchengine/internals/utilities/task_utils.py:130-153 | one document is appended under its trial and sample, and the count grows by one |
| TaskUtils.FileAllFiles | matchengine/internals/utilities/task_utils.py:128-153 | the count grows by one per document; each trial/sample list gains exactly that sample's documents, in order; only the task's trial is touched |
| TaskUtils.FileAllSampleKeys | matchengine/internals/utilities/task_utils.py:151-153 | the sample keys of the trial gain exactly the samples of the filed documents |
| TaskUtils.QueryTail | matchengine/internals/utilities/task_utils.py:123-162 | lines 123-162: transform the results; with none, `setdefault` the clause protocol in `matches`; otherwise file every document; an exception stops the loop and escapes, else the task is acknowledged |
| TaskUtils.QueryStepAsWritten | matchengine/internals/utilities/task_utils.py:97-162 | the query handler as written: a retryable query error puts the task back and acknowledges it, then the tail runs with no results and acknowledges it again |
| TaskUtils.QueryStep | matchengine/internals/utilities/task_utils.py:97-162 | the query handler with one acknowledgement per task: a retryable query error only puts the task back; other errors stop the loop; the tail then runs |
| TaskUtils.EmptyResultEntry | matchengine/internals/utilities/task_utils.py:102-127 | when the transformed results are empty (after a successful query or a query error) the clause protocol gets an entry in `matches`, no other entry changes, `queue_task_count` is unchanged and nothing escapes |
| TaskUtils.QueryStepFiles | matchengine/internals/utilities/task_utils.py:123-162 | after a successful query that escapes nothing, the task is acknowledged once and, when there were results, `queue_task_count` grew by the number of reasons and a trial entry exists only where a reason was filed |
| TaskUtils.QueryTailLog | matchengine/internals/utilities/task_utils.py:123-162 | the tail of the query handler appends exactly one acknowledgement when nothing escapes, and none otherwise |
| TaskUtils.RetriedQueryAcknowledgedTwice | matchengine/internals/utilities/task_utils.py:105-162 | on a retryable query error, both versions put the task back once; the code as written acknowledges one more time than the corrected handler, which acknowledges exactly once |
| TaskUtils.UpdateStep | matchengine/internals/utilities/task_utils.py:171-196 | `run_update_task`: the update operations are written, then the task is acknowledged; a write error goes to the shared `except` branch with `AutoReconnect` acknowledging first |
| TaskUtils.RunLogStep | matchengine/internals/utilities/task_utils.py:199-242 | `run_run_log_update_task`: a protocol not being matched is only acknowledged; otherwise the run log entry is inserted, histories are created for new clinical ids, the run id is added, and the task acknowledged; errors go to the shared `except` branch |
| TaskUtils.NewRunHistoryIds | matchengine/internals/utilities/task_utils.py:214 | the new ids are exactly the protocol's clinical ids not already present |
| TaskUtils.RunLogCreatesNewHistories | matchengine/internals/utilities/task_utils.py:210-228 | when the handler completes, run histories are created for exactly the new ids, in one bulk write that happens only when there is at least one |
| TaskUtils.Engine.constructor | matchengine/internals/utilities/task_utils.py:31-242 | an empty queue log, no matches, a zero count, nothing stopped or written |
| TaskUtils.Engine.RunCheckIndicesTask | matchengine/internals/utilities/task_utils.py:31-69 | enqueues exactly the missing builds, then acknowledges; a retryable error puts the task back and acknowledges; any other error exits, stops and escapes without acknowledging |
| TaskUtils.Engine.EnqueuePlan | matchengine/internals/utilities/task_utils.py:39-50 | the builds put on the queue are exactly the plan's, and the error is the plan's |
| TaskUtils.Engine.EnqueueCollection | matchengine/internals/utilities/task_utils.py:40-50 | one collection's builds, or its error |
| TaskUtils.Engine.EnqueueBuilds | matchengine/internals/utilities/task_utils.py:49-50 | one build task per missing index |
| TaskUtils.Engine.RunIndexUpdateTask | matchengine/internals/utilities/task_utils.py:72-94 | builds the index and acknowledges; a retryable error puts the task back and acknowledges; any other error only stops the loop |
| TaskUtils.Engine.RunPoisonPill | matchengine/internals/utilities/task_utils.py:165-168 | only acknowledges |
| TaskUtils.Engine.RunUpdateTask | matchengine/internals/utilities/task_utils.py:171-196 | writes the operations to the trial-match collection and acknowledges; errors follow the retry rule, AutoReconnect acknowledging first |
| TaskUtils.Engine.HandleError | matchengine/internals/utilities/task_utils.py:183-196 | the shared `except` branch: the retry rule, AutoReconnect acknowledging before it puts back |
| TaskUtils.Engine.RunRunLogUpdateTask | matchengine/internals/utilities/task_utils.py:199-242 | a protocol not being matched is only acknowledged; otherwise it inserts the log entry, creates the missing histories, adds the run id to all, and acknowledges |
| TaskUtils.Engine.RunQueryTask | matchengine/internals/utilities/task_utils.py:97-162 | the handler with one acknowledgement per task: files one document per reason, sample after sample, or makes sure the protocol has an entry when there are no results |
| TaskUtils.Engine.FileResults | matchengine/internals/utilities/task_utils.py:128-153 | the outer loop files every sample's documents, stopping at the first that raises |
| TaskUtils.Engine.FileReasons | matchengine/internals/utilities/task_utils.py:129-153 | the inner loop files one sample's documents |
| TaskUtils.Engine.FileOne | matchengine/internals/utilities/task_utils.py:130-153 | filing one reason document counts it toward the queue task count, fails on a missing or unhashable `trial_id` or `sample_id`, and otherwise appends the document under its trial and sample, exactly as the filing function says |
| TaskUtils.FileResultsStep | matchengine/internals/utilities/task_utils.py:128-153 | one more sample files its documents after those of the earlier samples |
| TaskUtils.FileAllSnoc | matchengine/internals/utilities/task_utils.py:128-153 | filing one more reason document after a successful prefix is filing the prefix and then that document |
| TaskUtils.DocumentsPrefix | matchengine/internals/utilities/task_utils.py:128-129 | the documents of a prefix of the results are a prefix of all documents |
| TaskUtils.FiledUntilFailure | matchengine/internals/utilities/task_utils.py:156-160 | once filing a prefix raises, filing everything gives the same state |
| CriteriaTransform.MappingsAgree | matchengine/internals/match_criteria_transform.py:55-69 | every level named by `level_mapping` has an internal-id and a code field, and only known levels can be suspended |
| CriteriaTransform.Basename | matchengine/internals/match_criteria_transform.py:76 | the longest suffix without `/` |
| CriteriaTransform.Join | matchengine/internals/match_criteria_transform.py:76 | an absolute name replaces the directory; otherwise the directory, at most one `/`, then the name |
| CriteriaTransform.DirEntries | matchengine/internals/match_criteria_transform.py:75-76 | one entry per listed file: its basename and its joined path |
| CriteriaTransform.EntryOf | matchengine/internals/match_criteria_transform.py:76 | the key of a resource entry is a bare file name: it contains no `/` |
| CriteriaTransform.Entries | matchengine/internals/match_criteria_transform.py:74-76 | the entries of every resource directory, directory after directory |
| CriteriaTransform.Assign | matchengine/internals/match_criteria_transform.py:74-76 | dictionary assignment `resource_paths[name] = path` of each entry in turn |
| CriteriaTransform.ResourcePaths | matchengine/internals/match_criteria_transform.py:74-76 | `resource_paths` after the nested loops over the directories and their files |
| CriteriaTransform.AssignKeys | matchengine/internals/match_criteria_transform.py:74-76 | a name is a key of `resource_paths` exactly when some listed file has it as basename |
| CriteriaTransform.AssignLastWins | matchengine/internals/match_criteria_transform.py:74-76 | the last file with a basename decides the stored path |
| CriteriaTransform.AssignConcat | matchengine/internals/match_criteria_transform.py:74-76 | filing two runs of entries is the union of each, the later overriding |
| CriteriaTransform.LaterDirectoryOverrides | matchengine/internals/match_criteria_transform.py:74-76 | a later directory overrides the earlier ones on a shared name and leaves every other name as it was |
| CriteriaTransform.ResourcePathKeys | matchengine/internals/match_criteria_transform.py:74-76 | the keys are exactly the basenames of the listed files |
| CriteriaTransform.Elements | matchengine/internals/match_criteria_transform.py:83-90 | iteration yields list items, dict keys or characters; null, booleans, numbers and lists holding lists or dicts are a type error |
| CriteriaTransform.FieldProjection | matchengine/internals/match_criteria_transform.py:83 | every listed field maps to 1 and nothing else is a key |
| CriteriaTransform.Projections | matchengine/internals/match_criteria_transform.py:82-84 | fails exactly when the value is not a dict or some collection's fields cannot be iterated; otherwise one entry per collection, each sending exactly its fields to 1 |
| CriteriaTransform.NormaliseAccrualValue | matchengine/internals/match_criteria_transform.py:105-109 | a string becomes one with no ASCII capital and no whitespace at either end; any other value passes through unchanged |
| CriteriaTransform.NormaliseFixedPoints | matchengine/internals/match_criteria_transform.py:106 | the strings left unchanged are exactly those with no capital and no surrounding whitespace |
| CriteriaTransform.NormaliseIdempotent | matchengine/internals/match_criteria_transform.py:105-109 | normalising twice is normalising once |
| CriteriaTransform.NormaliseAccrualValues | matchengine/internals/match_criteria_transform.py:104-109 | one output per input, in order |
| CriteriaTransform.IterItems | matchengine/internals/match_criteria_transform.py:104 | a list gives its items and a string its characters, in order; anything else fails |
| CriteriaTransform.StatusKeyOf | matchengine/internals/match_criteria_transform.py:95-109 | an absent or null key means no custom key; it aborts exactly when the key is a dict without a non-null `open_to_accrual_values`; otherwise the key name is the configured `key_name` and the stored values are the given ones, normalised one by one |
| CriteriaTransform.Configure | matchengine/internals/match_criteria_transform.py:71-109 | a missing `ctml_collection_mappings` is a KeyError; on success `trial_collection` defaults to `'trial'`, `trial_identifier` to `'protocol_no'`, `match_trial_link_id` to whatever `trial_identifier` became, `valid_clinical_reasons` to the empty set; the projections and resource paths are as above |
| CriteriaTransform.AbortsWithoutAccrualValues | matchengine/internals/match_criteria_transform.py:96-102 | construction aborts for missing accrual values exactly when the status key is a dict lacking them and everything read before it succeeded |
| CriteriaTransform.StoredAccrualValuesNormalised | matchengine/internals/match_criteria_transform.py:104-109 | every stored accrual value is already normalised |
| CriteriaTransform.MatchCriteriaTransform.Blank | matchengine/internals/match_criteria_transform.py:71-73 | the object before the constructor body assigns anything: no resource paths, no custom status key |
| CriteriaTransform.MatchCriteriaTransform.AddResourceFiles | matchengine/internals/match_criteria_transform.py:75-76 | the inner loop files every listed file of one directory over the existing paths |
| CriteriaTransform.MatchCriteriaTransform.AddResourceDirs | matchengine/internals/match_criteria_transform.py:74-76 | walking all resource directories from an empty table leaves exactly the resource path map the directories define, later directories overriding earlier ones |
| CriteriaTransform.MatchCriteriaTransform.AppendAccrualValues | matchengine/internals/match_criteria_transform.py:104-109 | the loop appends each value, normalised, after those already there |
| CriteriaTransform.MatchCriteriaTransform.Create | matchengine/internals/match_criteria_transform.py:71-109 | the object's attributes are exactly Configure's result, and every failure is Configure's |
| Oncotree.Label | matchengine/scratch.py:15-21 | a label holds no `(` and has no whitespace at either end |
| Oncotree.Labels | matchengine/scratch.py:15-21 | seven labels, one per level column |
| Oncotree.LabelRows | matchengine/scratch.py:14-21 | the labels of every row, in order |
| Oncotree.AddLevels | matchengine/scratch.py:22-28 | the update lines for one row: each level's label gains the labels of all deeper levels |
| Oncotree.Closure | matchengine/scratch.py:14-28 | the defaultdict after the loop over all rows, starting empty |
| Oncotree.AddLevelsKey | matchengine/scratch.py:22-28 | one row's updates add exactly its labels as keys |
| Oncotree.AddLevelsMember | matchengine/scratch.py:22-28 | one row's updates add to each level exactly that level and the deeper labels |
| Oncotree.ClosureKeys | matchengine/scratch.py:14-28 | a label is a key exactly when some row has it at some level |
| Oncotree.ClosureMember | matchengine/scratch.py:14-28 | x is in the set of k exactly when some row has k at a level and x at that level or deeper |
| Oncotree.RowIsClosed | matchengine/scratch.py:22-28 | every level of every row maps to a set holding each deeper label of that row |
| Oncotree.ClosureGrows | matchengine/scratch.py:14-28 | processing more rows only adds to the sets |
| Oncotree.ClosureOfPrefix | matchengine/scratch.py:14-28 | the closure of one more row is the previous closure updated by that row |
| Oncotree.AddRows | matchengine/scratch.py:13-28 | the loop builds exactly the closure of the labelled rows |
| Oncotree.Cleanup | matchengine/scratch.py:30-33 | fails exactly when there is no `''` key; otherwise no `''` key is left and no set holds `''`, every other key stays, no key is added, and every set keeps its other elements |
| Oncotree.CleanupFailsWithoutEmptyLabel | matchengine/scratch.py:30 | the `del` fails exactly when no row produced an empty label |
| Oncotree.RemoveEmptyLabel | matchengine/scratch.py:30-33 | the in-place cleanup computes Cleanup |
| Oncotree.WithLiquid | matchengine/scratch.py:34 | `_LIQUID_` is the union of the `Lymph` and `Blood` sets, each empty when absent, and those two keys are created |
| Oncotree.SolidAdditions | matchengine/scratch.py:35-37 | the keys present before the `_SOLID_` loop that are not liquid subtypes |
| Oncotree.WithSolid | matchengine/scratch.py:35-37 | `_SOLID_` gains those keys, and is created only when something is added |
| Oncotree.DeriveGroups | matchengine/scratch.py:34-37 | `_LIQUID_` and then `_SOLID_` added to the cleaned mapping |
| Oncotree.GroupsSpec | matchengine/scratch.py:34-37 | `_SOLID_` receives every key present before the loop that is not in `_LIQUID_`, the `_LIQUID_` key included; it gains nothing else beyond what it held; `_LIQUID_` is the union of Lymph and Blood; no other key changes |
| Oncotree.GrowSolidStep | matchengine/scratch.py:35-37 | adding one key to `_SOLID_` grows the added set by that key |
| Oncotree.AddGroups | matchengine/scratch.py:34-37 | the in-place derivation computes DeriveGroups |
| Oncotree.SubtypeMapping | matchengine/scratch.py:13-37 | the closure over the rows, cleaned of the empty label (a failure when there is none), with the two groups added |
| Oncotree.SetToList | matchengine/scratch.py:40 | the list holds exactly the set's elements, each once |
| Oncotree.ToLists | matchengine/scratch.py:39-40 | every key keeps its element set, as a list without repeats |
| Oncotree.NoEmptyLabelInResult | matchengine/scratch.py:30-37 | after cleanup and grouping there is no `''` key and no set holds `''` |
| Oncotree.BuildSubtypeMapping | matchengine/scratch.py:13-40 | fails exactly when the specification does; otherwise it has the same keys and each list holds exactly the specified set |

## Left out

- Reading the configuration, the oncotree table and the resource directories, and writing JSON: the contents
  are inputs and outputs of the model.
- Logging, `matchengine.debug` messages and `traceback`: they have no effect on state. The one exception is the
  debug-only `task.trial[trial_identifier]` lookup, which can raise and is modelled.
- asyncio, `asyncio.gather`, worker scheduling and `loop.stop()` as a mechanism: the loop stopping is a flag.
  Each handler runs to completion as one step.
- TaskUtils.RunLogStep: the gathered `distinct` and `insert_one` are treated as one answer. When `distinct`
  raises, the model writes no run-log entry, although `insert_one` may already have run.
- TaskUtils.Engine.RunRunLogUpdateTask: its contract equals TaskUtils.RunLogStep, so it has the same gap. When
  `distinct` raises, a run-log entry that `insert_one` may already have written is not recorded.
- TaskUtils.Engine.RunUpdateTask: `chunk_list` is not part of this model. The operations are one bulk write,
  and any chunk failing is one error.
- Plugin hooks (`results_transformer`, `pre_process_trial_matches`, `create_trial_matches`,
  `get_sort_order`): they are function parameters that cannot raise. A plugin raising is not modelled, apart
  from filing failing on a missing trial id or `sample_id`.
- `by_sample_id` in the query handler is a local that nothing reads, so it is not kept.
- `QueryNode.sibling_nodes`, `QueryNodeContainer`, `MultiCollectionQuery` and the other types of
  `matchengine_types.py` are not part of this model.
- QueryModel.QueryNode.Hash: it requires that the node's parts share the node's hasher. In the program there is
  only one `nested_object_hash`.
- QueryModel.MatchCriterion.AddCriteria: the model assumes the criteria list is not shared. Python keeps a
  reference to the caller's list (`matchengine_types.py` line 129) and appends to it in place (line 134). Another holder
  of the same list would see the append without its memoised hash being cleared. Here the list is a value
  field, so `MatchCriterion.Valid()` holds where Python's memo could go stale.
- QueryModel.QueryPart.SetQueryAttr: the model assumes the query dict is not shared. Python stores a
  reference to the caller's dict (line 159) and updates it in place (line 172), so another part or node holding the same
  dict would see the change. Here the query is a value field.
- QueryModel.QueryNode.AddQueryPart: the model assumes the list of parts is not shared. Python keeps a
  reference to the caller's list (line 210) and appends to it in place (line 230), which another node holding the
  same list would see without its three memoised values being reset. Here the list is a value field, so
  `QueryNode.CachesCoherent()` holds where Python's caches could go stale. Part objects themselves are
  shared references in the model, as in Python.
- Python treats `True` and `1` as equal dict keys and set elements; JSON values here keep them apart.
- Text.Lower: only ASCII capitals are lowered. Python's full Unicode case mapping is not modelled.
- Floating-point numbers are not among the JSON values.
- CriteriaTransform.IterItems: a dict given as `open_to_accrual_values` is refused. Python would iterate its
  keys in insertion order, and the model keeps no key order.
- `AllTransformersContainer`, `TransformFunctions` and the query transformers are not part of this model.
- CriteriaTransform.Elements: every type error is reported under the configuration key being read; Python's
  exception messages are not modelled.

## Findings

| source | as written | input that shows it | evidently intended | confidence | as-written member | corrected member |
|---|---|---|---|---|---|---|
| matchengine/internals/utilities/task_utils.py:109-162 | a retryable error from `run_query` puts the task back and calls `task_done()` in the `except` branch; the handler then goes on with empty results and calls `task_done()` again at line 162 | `run_query` raises `AutoReconnect` (or `CursorNotFound`, `ServerSelectionTimeoutError`): two `task_done()` calls for one `get()`, which over-acknowledges the queue (`ValueError: task_done() called too many times` or an early `join()`) | acknowledge the task once: put it back, and let the final `task_done()` acknowledge it | not executed | TaskUtils.QueryStepAsWritten, TaskUtils.RetriedQueryAcknowledgedTwice | TaskUtils.QueryStep, TaskUtils.Engine.RunQueryTask |
