/**
 * The bookkeeping of the match engine's task handlers
 * (matchengine/internals/utilities/task_utils.py): what each handler puts on
 * the shared task queue, how often it acknowledges (`task_done`), how query
 * results are filed into the `matches` table, and which database writes it
 * asks for.
 *
 * Every database call and every plugin hook is a parameter: a handler is
 * given the answer the database would give (a value or the class of the
 * exception it raised) and the functions the plugins compute.  The queue is
 * the log of operations done on it, in order.
 */
module TaskUtils {
  import opened Wrappers
  import Json

  type Digest = string

  /** A match document, or any other MongoDB document. */
  type Doc = map<string, Json.Value>

  /** The exception classes the handlers tell apart; a subclass of one of the first three counts as `OtherError`. */
  datatype ErrorClass = AutoReconnect | CursorNotFound | ServerSelectionTimeout | OtherError

  /** The handlers compare `e.__class__` with these three classes by identity. */
  predicate Retryable(e: ErrorClass) {
    e.AutoReconnect? || e.CursorNotFound? || e.ServerSelectionTimeout?
  }

  /** What a database call gives back: its answer, or the class of the exception it raised. */
  datatype DbAnswer<T> = Answer(value: T) | Raised(error: ErrorClass)

  /** The reasons one clinical record matched, as the query returned them. */
  datatype SampleResults = SampleResults(clinicalId: string, reasons: seq<Json.Value>)

  datatype Task =
    | CheckIndicesTask
    | IndexUpdateTask(collection: string, index: string)
      /** `trial` is the trial document; `clauseProtocolNo` is `match_clause_data.protocol_no`. */
    | QueryTask(trial: Doc, clauseProtocolNo: Json.Value, query: Json.Value, clinicalIds: seq<string>)
    | PoisonPill
    | UpdateTask(protocolNo: string, ops: seq<Json.Value>)
    | RunLogUpdateTask(protocolNo: string)

  /** One operation on the task queue. */
  datatype QueueOp = Put(task: Task) | TaskDone

  /** A write the handlers ask of the database. */
  datatype DbWrite =
    | CreateIndex(collection: string, index: string)
    | BulkWrite(collection: string, ops: seq<Json.Value>)
    | InsertRunLog(collection: string, entry: Json.Value)
    | InsertRunHistory(collection: string, newIds: set<string>)
    | AddToRunHistory(collection: string, clinicalIds: seq<string>, runId: string)

  /** `matches[trial id][sample id]`: the match documents filed so far. */
  type Matches = map<Json.Value, map<Json.Value, seq<Doc>>>

  /** The engine settings the handlers read and never change. */
  datatype Config = Config(
    indices: Option<seq<(string, seq<string>)>>,
    trialMatchCollection: string,
    trialIdentifier: string,
    debug: bool,
    trialsToMatchOn: set<string>,
    runLogEntries: map<string, Json.Value>,
    clinicalRunLogEntries: map<string, seq<string>>,
    runId: string)

  /** The part of the engine the handlers change. */
  datatype EngineState = EngineState(
    queueLog: seq<QueueOp>,
    matches: Matches,
    queueTaskCount: nat,
    stopped: bool,
    exited: bool,
    dbWrites: seq<DbWrite>)

  /** The state after a handler, and the exception it let escape, if any. */
  datatype Outcome = Outcome(state: EngineState, raised: Option<ErrorClass>)

  // ---------------------------------------------------------------------
  // The queue log

  /** The tasks put on the queue by `ops`, with multiplicity. */
  function Puts(ops: seq<QueueOp>): multiset<Task> {
    if ops == [] then multiset{}
    else Puts(ops[..|ops| - 1]) + (if ops[|ops| - 1].Put? then multiset{ops[|ops| - 1].task} else multiset{})
  }

  /** How many times `ops` acknowledge a task. */
  function DoneCount(ops: seq<QueueOp>): nat {
    if ops == [] then 0
    else DoneCount(ops[..|ops| - 1]) + (if ops[|ops| - 1].TaskDone? then 1 else 0)
  }

  lemma {:induction false} LogAppend(a: seq<QueueOp>, b: seq<QueueOp>)
    ensures Puts(a + b) == Puts(a) + Puts(b)
    ensures DoneCount(a + b) == DoneCount(a) + DoneCount(b)
  {
    if b == [] {
      assert a + b == a;
    } else {
      assert (a + b)[..|a + b| - 1] == a + b[..|b| - 1];
      assert (a + b)[|a + b| - 1] == b[|b| - 1];
      LogAppend(a, b[..|b| - 1]);
    }
  }

  lemma PutsSnoc(ops: seq<QueueOp>, op: QueueOp)
    ensures Puts(ops + [op]) == Puts(ops) + (if op.Put? then multiset{op.task} else multiset{})
    ensures DoneCount(ops + [op]) == DoneCount(ops) + (if op.TaskDone? then 1 else 0)
  {
    assert (ops + [op])[..|ops|] == ops;
  }

  /** The puts of `tasks`, in order. */
  function PutAll(tasks: seq<Task>): seq<QueueOp> {
    seq(|tasks|, k requires 0 <= k < |tasks| => Put(tasks[k]))
  }

  /** Putting `a` then `b` after `base` is putting `a + b`. */
  lemma LogStep(base: seq<QueueOp>, a: seq<Task>, b: seq<Task>)
    ensures base + PutAll(a) + PutAll(b) == base + PutAll(a + b)
  {
    assert PutAll(a + b) == PutAll(a) + PutAll(b);
  }

  // ---------------------------------------------------------------------
  // The retry rule shared by the handlers

  /**
   * The `except` branch of a handler: a retryable error puts the same task back
   * and acknowledges the current one (in the order `doneFirst` gives for
   * `AutoReconnect`), any other error is re-raised with nothing put back.
   */
  function Recover(s: EngineState, task: Task, e: ErrorClass, doneFirstOnReconnect: bool): Outcome {
    if !Retryable(e) then Outcome(s, Some(e))
    else if e.AutoReconnect? && doneFirstOnReconnect then Outcome(s.(queueLog := s.queueLog + [TaskDone, Put(task)]), None)
    else Outcome(s.(queueLog := s.queueLog + [Put(task), TaskDone]), None)
  }

  /** A retryable error re-enqueues exactly the same task once and acknowledges once; any other escapes, putting nothing back. */
  lemma RecoverRetries(s: EngineState, task: Task, e: ErrorClass, doneFirstOnReconnect: bool)
    ensures var o := Recover(s, task, e, doneFirstOnReconnect);
            && o.state.queueLog[..|s.queueLog|] == s.queueLog
            && o.state == s.(queueLog := o.state.queueLog)
            && (o.raised.None? <==> Retryable(e))
            && (Retryable(e) ==> Puts(o.state.queueLog[|s.queueLog|..]) == multiset{task}
                                 && DoneCount(o.state.queueLog[|s.queueLog|..]) == 1)
            && (!Retryable(e) ==> o.state == s && o.raised == Some(e))
  {
    var o := Recover(s, task, e, doneFirstOnReconnect);
    if Retryable(e) {
      var pair: seq<QueueOp> := if e.AutoReconnect? && doneFirstOnReconnect then [TaskDone, Put(task)] else [Put(task), TaskDone];
      assert o.state.queueLog == s.queueLog + pair;
      assert o.state.queueLog[|s.queueLog|..] == pair;
      PutsPair(pair[0], pair[1]);
      assert pair == [pair[0], pair[1]];
    }
  }

  /** The puts and acknowledgements of two queue operations. */
  lemma PutsPair(x: QueueOp, y: QueueOp)
    ensures Puts([x, y]) == (if x.Put? then multiset{x.task} else multiset{}) + (if y.Put? then multiset{y.task} else multiset{})
    ensures DoneCount([x, y]) == (if x.TaskDone? then 1 else 0) + (if y.TaskDone? then 1 else 0)
  {
    assert [x, y] == [] + [x] + [y];
    PutsSnoc([], x);
    PutsSnoc([] + [x], y);
  }

  // ---------------------------------------------------------------------
  // run_check_indices_task: which index builds are enqueued

  /** The config key `trial_match` names the engine's trial-match collection. */
  function Redirect(collection: string, trialMatchCollection: string): (c: string)
    ensures collection != "trial_match" ==> c == collection
  {
    if collection == "trial_match" then trialMatchCollection else collection
  }

  /** `key` is the first key of one of the index specs. */
  ghost predicate IsFirstKey(specs: seq<seq<string>>, key: string) {
    exists k :: 0 <= k < |specs| && |specs[k]| > 0 && specs[k][0] == key
  }

  /** The names of the existing indices: the first key of each spec; an empty spec is an `IndexError`. */
  function FirstKeys(specs: seq<seq<string>>): (r: Result<set<string>, ErrorClass>)
    ensures r.Failure? <==> exists k :: 0 <= k < |specs| && specs[k] == []
    ensures r.Failure? ==> r.error == OtherError
    ensures r.Success? ==> forall key :: key in r.value <==> IsFirstKey(specs, key)
  {
    if specs == [] then Success({})
    else
      var init := specs[..|specs| - 1];
      var last := specs[|specs| - 1];
      match FirstKeys(init)
      case Failure(e) => Failure(e)
      case Success(keys) =>
        if last == [] then Failure(OtherError)
        else
          assert forall key :: IsFirstKey(specs, key) <==> IsFirstKey(init, key) || key == last[0] by {
            forall key | IsFirstKey(specs, key)
              ensures IsFirstKey(init, key) || key == last[0]
            {
              var k :| 0 <= k < |specs| && |specs[k]| > 0 && specs[k][0] == key;
              if k < |init| { assert init[k] == specs[k]; }
            }
            forall key | IsFirstKey(init, key)
              ensures IsFirstKey(specs, key)
            {
              var k :| 0 <= k < |init| && |init[k]| > 0 && init[k][0] == key;
              assert specs[k] == init[k];
            }
          }
          Success(keys + {last[0]})
  }

  /** The desired indices of one collection that do not exist yet, or the error reading the existing ones. */
  function MissingIndices(desired: seq<string>, specs: seq<seq<string>>): (r: Result<set<string>, ErrorClass>)
    ensures r.Failure? <==> exists k :: 0 <= k < |specs| && specs[k] == []
    ensures r.Success? ==> forall i :: i in r.value <==> i in desired && !IsFirstKey(specs, i)
  {
    match FirstKeys(specs)
    case Failure(e) => Failure(e)
    case Success(existing) => Success((set i | i in desired) - existing)
  }

  /** One `IndexUpdateTask` per missing index of a collection. */
  function UpdateTasks(collection: string, missing: set<string>): multiset<Task> {
    multiset(set i | i in missing :: IndexUpdateTask(collection, i))
  }

  lemma UpdateTasksAdd(collection: string, missing: set<string>, i: string)
    requires i !in missing
    ensures UpdateTasks(collection, missing + {i}) == UpdateTasks(collection, missing) + multiset{IndexUpdateTask(collection, i)}
  {
    var a := set j | j in missing :: IndexUpdateTask(collection, j);
    var b := set j | j in missing + {i} :: IndexUpdateTask(collection, j);
    assert b == a + {IndexUpdateTask(collection, i)};
    assert IndexUpdateTask(collection, i) !in a;
  }

  /** The index builds to enqueue, and the error that stops the scan of the configured collections. */
  datatype Plan = Plan(puts: multiset<Task>, error: Option<ErrorClass>)

  /** What lines 40-50 do for one configured collection. */
  function CollectionPlan(item: (string, seq<string>), listIndexes: string -> DbAnswer<seq<seq<string>>>,
                          trialMatchCollection: string): Plan
  {
    var c := Redirect(item.0, trialMatchCollection);
    match listIndexes(c)
    case Raised(e) => Plan(multiset{}, Some(e))
    case Answer(specs) =>
      match MissingIndices(item.1, specs)
      case Failure(e) => Plan(multiset{}, Some(e))
      case Success(missing) => Plan(UpdateTasks(c, missing), None)
  }

  /** The scan of `config['indices']` in order, stopping at the first error. */
  function IndexPlan(items: seq<(string, seq<string>)>, listIndexes: string -> DbAnswer<seq<seq<string>>>,
                     trialMatchCollection: string): Plan
  {
    if items == [] then Plan(multiset{}, None)
    else
      var p := IndexPlan(items[..|items| - 1], listIndexes, trialMatchCollection);
      if p.error.Some? then p
      else
        var q := CollectionPlan(items[|items| - 1], listIndexes, trialMatchCollection);
        Plan(p.puts + q.puts, q.error)
  }

  /** Lines 42-47: the first key of every existing index, read in a loop that stops at an empty spec. */
  method ExistingIndexNames(specs: seq<seq<string>>) returns (r: Result<set<string>, ErrorClass>)
    ensures r == FirstKeys(specs)
  {
    var existing: set<string> := {};
    var i := 0;
    while i < |specs|
      invariant 0 <= i <= |specs|
      invariant FirstKeys(specs[..i]) == Success(existing)
    {
      assert specs[..i + 1][..i] == specs[..i];
      if specs[i] == [] {
        return Failure(OtherError);
      }
      existing := existing + {specs[i][0]};
      i := i + 1;
    }
    assert specs[..i] == specs;
    r := Success(existing);
  }

  lemma IndexPlanSnoc(items: seq<(string, seq<string>)>, listIndexes: string -> DbAnswer<seq<seq<string>>>, tmc: string, j: nat)
    requires j < |items|
    requires IndexPlan(items[..j], listIndexes, tmc).error.None?
    ensures var p := IndexPlan(items[..j], listIndexes, tmc);
            var q := CollectionPlan(items[j], listIndexes, tmc);
            IndexPlan(items[..j + 1], listIndexes, tmc) == Plan(p.puts + q.puts, q.error)
  {
    assert items[..j + 1][..j] == items[..j];
  }

  /** A config without `indices` is a `KeyError` before anything is enqueued. */
  function CheckIndicesPlan(config: Config, listIndexes: string -> DbAnswer<seq<seq<string>>>): Plan {
    match config.indices
    case None => Plan(multiset{}, Some(OtherError))
    case Some(items) => IndexPlan(items, listIndexes, config.trialMatchCollection)
  }

  /** Once the scan has stopped on an error, later collections add nothing. */
  lemma {:induction false} IndexPlanStops(items: seq<(string, seq<string>)>, listIndexes: string -> DbAnswer<seq<seq<string>>>,
                                          tmc: string, k: nat)
    requires k <= |items| && IndexPlan(items[..k], listIndexes, tmc).error.Some?
    ensures IndexPlan(items, listIndexes, tmc) == IndexPlan(items[..k], listIndexes, tmc)
  {
    if k < |items| {
      assert items[..|items| - 1][..k] == items[..k];
      IndexPlanStops(items[..|items| - 1], listIndexes, tmc, k);
    } else {
      assert items[..k] == items;
    }
  }

  /** The plan only ever asks for index builds. */
  lemma {:induction false} IndexPlanOnlyBuilds(items: seq<(string, seq<string>)>, listIndexes: string -> DbAnswer<seq<seq<string>>>,
                                               tmc: string, t: Task)
    requires t in IndexPlan(items, listIndexes, tmc).puts
    ensures t.IndexUpdateTask?
  {
    var init := items[..|items| - 1];
    var p := IndexPlan(init, listIndexes, tmc);
    if t in p.puts {
      IndexPlanOnlyBuilds(init, listIndexes, tmc, t);
    }
  }

  /** Collection `c` is configured at position `j`, answered, and lacks index `i`. */
  ghost predicate Wanted(items: seq<(string, seq<string>)>, listIndexes: string -> DbAnswer<seq<seq<string>>>,
                         tmc: string, j: int, c: string, i: string)
  {
    && 0 <= j < |items| && Redirect(items[j].0, tmc) == c
    && listIndexes(c).Answer? && i in items[j].1 && !IsFirstKey(listIndexes(c).value, i)
  }

  /**
   * When the scan meets no error, a build of index `i` on collection `c` is
   * enqueued exactly when some configured entry for `c` (after redirecting
   * `trial_match`) desires `i` and no existing index of `c` has `i` as its
   * first key.
   */
  lemma {:induction false} IndexPlanTasks(items: seq<(string, seq<string>)>, listIndexes: string -> DbAnswer<seq<seq<string>>>,
                                          tmc: string, c: string, i: string)
    requires IndexPlan(items, listIndexes, tmc).error.None?
    ensures IndexUpdateTask(c, i) in IndexPlan(items, listIndexes, tmc).puts <==>
            exists j :: Wanted(items, listIndexes, tmc, j, c, i)
  {
    if items != [] {
      var n := |items| - 1;
      var init := items[..n];
      assert IndexPlan(init, listIndexes, tmc).error.None?;
      IndexPlanTasks(init, listIndexes, tmc, c, i);
      CollectionPlanTasks(items[n], listIndexes, tmc, c, i);
      WantedSnoc(items, init, listIndexes, tmc, c, i);
    }
  }

  /** One collection: a build of `i` on `c` is planned exactly when that entry wants it. */
  lemma CollectionPlanTasks(item: (string, seq<string>), listIndexes: string -> DbAnswer<seq<seq<string>>>,
                            tmc: string, c: string, i: string)
    requires CollectionPlan(item, listIndexes, tmc).error.None?
    ensures IndexUpdateTask(c, i) in CollectionPlan(item, listIndexes, tmc).puts <==> Wanted([item], listIndexes, tmc, 0, c, i)
  {
    var c' := Redirect(item.0, tmc);
    var missing := MissingIndices(item.1, listIndexes(c').value).value;
    assert IndexUpdateTask(c, i) in UpdateTasks(c', missing) <==> c == c' && i in missing;
  }

  /** An entry wants `i` on `c` exactly when an earlier one does or the last one does. */
  lemma WantedSnoc(items: seq<(string, seq<string>)>, init: seq<(string, seq<string>)>,
                   listIndexes: string -> DbAnswer<seq<seq<string>>>, tmc: string, c: string, i: string)
    requires items != [] && init == items[..|items| - 1]
    ensures (exists j :: Wanted(items, listIndexes, tmc, j, c, i)) <==>
            (exists j :: Wanted(init, listIndexes, tmc, j, c, i))
            || Wanted([items[|items| - 1]], listIndexes, tmc, 0, c, i)
  {
    var n := |items| - 1;
    if exists j :: Wanted(items, listIndexes, tmc, j, c, i) {
      var j :| Wanted(items, listIndexes, tmc, j, c, i);
      if j < n {
        assert init[j] == items[j];
        assert Wanted(init, listIndexes, tmc, j, c, i);
      } else {
        assert [items[n]][0] == items[j];
      }
    }
    if exists j :: Wanted(init, listIndexes, tmc, j, c, i) {
      var j :| Wanted(init, listIndexes, tmc, j, c, i);
      assert items[j] == init[j];
      assert Wanted(items, listIndexes, tmc, j, c, i);
    }
    if Wanted([items[n]], listIndexes, tmc, 0, c, i) {
      assert Wanted(items, listIndexes, tmc, n, c, i);
    }
  }

  // ---------------------------------------------------------------------
  // run_query_task: match documents and the matches table

  /** The document's fields that its hash covers: all but `hash` and `is_disabled`. */
  function HashInput(d: Doc): Doc {
    map k | k in d && k != "hash" && k != "is_disabled" :: d[k]
  }

  /** Setting one key leaves the hashed fields alone exactly when it is `hash`, `is_disabled`, or a key already holding that value. */
  lemma HashInputUpdate(d: Doc, k: string, v: Json.Value)
    ensures HashInput(d[k := v]) == HashInput(d) <==> k == "hash" || k == "is_disabled" || (k in d && d[k] == v)
  {
    if k != "hash" && k != "is_disabled" {
      assert k in HashInput(d[k := v]) && HashInput(d[k := v])[k] == v;
      if HashInput(d[k := v]) == HashInput(d) {
        assert k in HashInput(d);
      }
    }
    if k == "hash" || k == "is_disabled" || (k in d && d[k] == v) {
      assert HashInput(d[k := v]).Keys == HashInput(d).Keys;
    }
  }

  /** Removing one key leaves the hashed fields alone exactly when it is `hash`, `is_disabled`, or absent. */
  lemma HashInputRemove(d: Doc, k: string)
    ensures HashInput(d - {k}) == HashInput(d) <==> k == "hash" || k == "is_disabled" || k !in d
  {
    if k != "hash" && k != "is_disabled" && k in d {
      assert k in HashInput(d) && k !in HashInput(d - {k});
    }
    if k == "hash" || k == "is_disabled" || k !in d {
      assert HashInput(d - {k}).Keys == HashInput(d).Keys;
    }
  }

  /**
   * The finished match document: `sort_order` set from the plugin, then
   * `hash` over every other field but `is_disabled`, then `_me_id`.
   */
  function MatchDocument(proto: Doc, sortOrder: Doc -> Json.Value, hasher: Json.Value -> Digest, runId: string): Doc {
    var sorted := proto["sort_order" := sortOrder(proto)];
    sorted["hash" := Json.Str(hasher(Json.Obj(HashInput(sorted))))]["_me_id" := Json.Str(runId)]
  }

  /**
   * The stored hash covers every field of the finished document except
   * `hash`, `is_disabled` and `_me_id` (when the plugin set no `_me_id`);
   * `sort_order` is covered, and the document keeps every plugin field.
   */
  lemma MatchDocumentHash(proto: Doc, sortOrder: Doc -> Json.Value, hasher: Json.Value -> Digest, runId: string)
    requires "_me_id" !in proto
    ensures var d := MatchDocument(proto, sortOrder, hasher, runId);
            && d.Keys == proto.Keys + {"sort_order", "hash", "_me_id"}
            && d["sort_order"] == sortOrder(proto) && d["_me_id"] == Json.Str(runId)
            && d["hash"] == Json.Str(hasher(Json.Obj(HashInput(d - {"_me_id"}))))
            && forall k :: k in proto && k != "sort_order" && k != "hash" && k != "_me_id" ==> d[k] == proto[k]
  {
    var sorted := proto["sort_order" := sortOrder(proto)];
    var d := MatchDocument(proto, sortOrder, hasher, runId);
    assert HashInput(d - {"_me_id"}) == HashInput(sorted);
  }

  /** Two plugin documents that differ only in `hash` and `is_disabled`, and sort alike, get the same hash. */
  lemma MatchDocumentHashIgnores(p: Doc, q: Doc, sortOrder: Doc -> Json.Value, hasher: Json.Value -> Digest, runId: string)
    requires HashInput(p) == HashInput(q) && sortOrder(p) == sortOrder(q)
    ensures MatchDocument(p, sortOrder, hasher, runId)["hash"] == MatchDocument(q, sortOrder, hasher, runId)["hash"]
  {
    var sp := p["sort_order" := sortOrder(p)];
    var sq := q["sort_order" := sortOrder(q)];
    assert HashInput(sp) == HashInput(sq) by {
      assert HashInput(sp).Keys == HashInput(sq).Keys by {
        assert forall k :: k in HashInput(sp) <==> k in HashInput(p) || k == "sort_order";
        assert forall k :: k in HashInput(sq) <==> k in HashInput(q) || k == "sort_order";
      }
      forall k | k in HashInput(sp)
        ensures HashInput(sp)[k] == HashInput(sq)[k]
      {
        if k != "sort_order" {
          assert HashInput(p)[k] == p[k] && HashInput(q)[k] == q[k];
        }
      }
    }
  }

  /** What the plugins compute: `results_transformer`, the document factory and `get_sort_order`. */
  datatype QueryPlugins = QueryPlugins(
    transform: seq<SampleResults> -> seq<SampleResults>,
    makeDocument: (Task, Json.Value) -> Doc,
    sortOrder: Doc -> Json.Value)

  /** The finished documents of some reasons, in order. */
  function ReasonDocuments(task: Task, reasons: seq<Json.Value>, plugins: QueryPlugins,
                           hasher: Json.Value -> Digest, runId: string): (docs: seq<Doc>)
    ensures |docs| == |reasons|
  {
    seq(|reasons|, k requires 0 <= k < |reasons| =>
      MatchDocument(plugins.makeDocument(task, reasons[k]), plugins.sortOrder, hasher, runId))
  }

  /** The finished documents of all results, sample after sample. */
  function Documents(task: Task, results: seq<SampleResults>, plugins: QueryPlugins,
                     hasher: Json.Value -> Digest, runId: string): seq<Doc>
  {
    if results == [] then []
    else Documents(task, results[..|results| - 1], plugins, hasher, runId)
         + ReasonDocuments(task, results[|results| - 1].reasons, plugins, hasher, runId)
  }

  /** How many reasons the results hold over all samples. */
  function ReasonCount(results: seq<SampleResults>): nat {
    if results == [] then 0 else ReasonCount(results[..|results| - 1]) + |results[|results| - 1].reasons|
  }

  /** There is one finished document per reason of every sample. */
  lemma {:induction false} DocumentsCount(task: Task, results: seq<SampleResults>, plugins: QueryPlugins,
                                          hasher: Json.Value -> Digest, runId: string)
    ensures |Documents(task, results, plugins, hasher, runId)| == ReasonCount(results)
  {
    if results != [] {
      DocumentsCount(task, results[..|results| - 1], plugins, hasher, runId);
    }
  }

  /** The filing state: the table, `queue_task_count`, and whether filing raised. */
  datatype Filing = Filing(matches: Matches, count: nat, failed: bool)

  /**
   * Filing one document: the count grows first; a missing or unhashable trial
   * id raises before the table changes; `setdefault` then creates the trial's
   * entry, after which a missing or unhashable `sample_id` raises.
   */
  function FileDocument(m: Matches, count: nat, trialId: Option<Json.Value>, doc: Doc): Filing {
    if trialId.None? || !Json.Hashable(trialId.value) then Filing(m, count + 1, true)
    else
      var t := trialId.value;
      var m1 := if t in m then m else m[t := map[]];
      if "sample_id" !in doc || !Json.Hashable(doc["sample_id"]) then Filing(m1, count + 1, true)
      else
        var s := doc["sample_id"];
        var bySample := m1[t];
        Filing(m1[t := bySample[s := (if s in bySample then bySample[s] else []) + [doc]]], count + 1, false)
  }

  /** Filing documents in order, stopping at the first that raises. */
  function FileAll(m: Matches, count: nat, trialId: Option<Json.Value>, docs: seq<Doc>): Filing {
    if docs == [] then Filing(m, count, false)
    else
      var f := FileAll(m, count, trialId, docs[..|docs| - 1]);
      if f.failed then f else FileDocument(f.matches, f.count, trialId, docs[|docs| - 1])
  }

  /** Filing two runs of documents is filing the first, then the second from where the first left off. */
  lemma {:induction false} FileAllConcat(m: Matches, count: nat, trialId: Option<Json.Value>, a: seq<Doc>, b: seq<Doc>)
    ensures var f := FileAll(m, count, trialId, a);
            FileAll(m, count, trialId, a + b) == if f.failed then f else FileAll(f.matches, f.count, trialId, b)
  {
    if b == [] {
      assert a + b == a;
    } else {
      assert (a + b)[..|a + b| - 1] == a + b[..|b| - 1];
      FileAllConcat(m, count, trialId, a, b[..|b| - 1]);
    }
  }

  /** After a failure, later documents change nothing. */
  lemma {:induction false} FileAllStops(m: Matches, count: nat, trialId: Option<Json.Value>, docs: seq<Doc>, more: seq<Doc>)
    requires FileAll(m, count, trialId, docs).failed
    ensures FileAll(m, count, trialId, docs + more) == FileAll(m, count, trialId, docs)
  {
    if more == [] {
      assert docs + more == docs;
    } else {
      assert (docs + more)[..|docs + more| - 1] == docs + more[..|more| - 1];
      FileAllStops(m, count, trialId, docs, more[..|more| - 1]);
    }
  }

  /** The documents filed so far under trial `t` and sample `s`. */
  function ListAt(m: Matches, t: Json.Value, s: Json.Value): seq<Doc> {
    if t in m && s in m[t] then m[t][s] else []
  }

  /** The documents whose `sample_id` is `s`, in order. */
  function BySample(docs: seq<Doc>, s: Json.Value): (r: seq<Doc>)
    ensures |r| <= |docs|
  {
    if docs == [] then []
    else
      var last := docs[|docs| - 1];
      BySample(docs[..|docs| - 1], s) + (if "sample_id" in last && last["sample_id"] == s then [last] else [])
  }

  /** Every document carries a hashable `sample_id`. */
  ghost predicate Fileable(docs: seq<Doc>) {
    forall k :: 0 <= k < |docs| ==> "sample_id" in docs[k] && Json.Hashable(docs[k]["sample_id"])
  }

  /**
   * Filing raises exactly when there is something to file and the trial id is
   * missing or unhashable, or some document lacks a hashable `sample_id`.
   */
  lemma {:induction false} FileAllFails(m: Matches, count: nat, trialId: Option<Json.Value>, docs: seq<Doc>)
    ensures FileAll(m, count, trialId, docs).failed <==>
            |docs| > 0 && (trialId.None? || !Json.Hashable(trialId.value) || !Fileable(docs))
  {
    if docs != [] {
      var init := docs[..|docs| - 1];
      FileAllFails(m, count, trialId, init);
      if !Fileable(docs) && Fileable(init) {
        assert !("sample_id" in docs[|docs| - 1] && Json.Hashable(docs[|docs| - 1]["sample_id"]));
      }
      if !Fileable(init) {
        var k :| 0 <= k < |init| && !("sample_id" in init[k] && Json.Hashable(init[k]["sample_id"]));
        assert docs[k] == init[k];
      }
    }
  }

  /** One document filed without raising: it is appended under its trial and sample, and the count grows by one. */
  lemma FileDocumentFiles(m: Matches, count: nat, trialId: Option<Json.Value>, doc: Doc)
    requires !FileDocument(m, count, trialId, doc).failed
    ensures var f := FileDocument(m, count, trialId, doc);
            && trialId.Some? && "sample_id" in doc
            && f.count == count + 1
            && (forall t :: t in f.matches <==> t in m || trialId == Some(t))
            && (forall t, s :: ListAt(f.matches, t, s)
                               == ListAt(m, t, s) + (if trialId == Some(t) && doc["sample_id"] == s then [doc] else []))
            && (forall t, s :: t in f.matches && s in f.matches[t] <==>
                               (t in m && s in m[t]) || (trialId == Some(t) && doc["sample_id"] == s))
  {
  }

  /**
   * A successful filing adds one to `queue_task_count` per document, appends
   * each document to `matches[trial id][sample_id]` in order, creates the
   * trial's entry when there was something to file, and touches no other
   * trial.
   */
  lemma {:induction false} FileAllFiles(m: Matches, count: nat, trialId: Option<Json.Value>, docs: seq<Doc>)
    requires !FileAll(m, count, trialId, docs).failed
    ensures var f := FileAll(m, count, trialId, docs);
            && f.count == count + |docs|
            && (forall t :: t in f.matches <==> t in m || (|docs| > 0 && trialId == Some(t)))
            && (forall t, s :: ListAt(f.matches, t, s) == ListAt(m, t, s) + (if trialId == Some(t) then BySample(docs, s) else []))
  {
    if docs != [] {
      var init := docs[..|docs| - 1];
      var doc := docs[|docs| - 1];
      var g := FileAll(m, count, trialId, init);
      var f := FileAll(m, count, trialId, docs);
      assert f == FileDocument(g.matches, g.count, trialId, doc);
      FileAllFiles(m, count, trialId, init);
      FileDocumentFiles(g.matches, g.count, trialId, doc);
      forall t, s
        ensures ListAt(f.matches, t, s) == ListAt(m, t, s) + (if trialId == Some(t) then BySample(docs, s) else [])
      {
        var extra: seq<Doc> := if doc["sample_id"] == s then [doc] else [];
        assert BySample(docs, s) == BySample(init, s) + extra;
        if trialId == Some(t) {
          assert ListAt(f.matches, t, s) == ListAt(g.matches, t, s) + extra;
          assert ListAt(m, t, s) + BySample(init, s) + extra == ListAt(m, t, s) + (BySample(init, s) + extra);
        }
      }
    }
  }

  /** After a successful filing, a sample has an entry under a trial exactly when it had one or one of the documents is filed there. */
  lemma {:induction false} FileAllSampleKeys(m: Matches, count: nat, trialId: Option<Json.Value>, docs: seq<Doc>)
    requires !FileAll(m, count, trialId, docs).failed
    ensures var f := FileAll(m, count, trialId, docs);
            forall t, s :: t in f.matches && s in f.matches[t] <==>
                           (t in m && s in m[t]) || (trialId == Some(t) && |BySample(docs, s)| > 0)
  {
    if docs != [] {
      var init := docs[..|docs| - 1];
      var doc := docs[|docs| - 1];
      var g := FileAll(m, count, trialId, init);
      FileAllSampleKeys(m, count, trialId, init);
      FileDocumentFiles(g.matches, g.count, trialId, doc);
      forall s
        ensures |BySample(docs, s)| > 0 <==> |BySample(init, s)| > 0 || doc["sample_id"] == s
      {
        assert BySample(docs, s) == BySample(init, s) + (if doc["sample_id"] == s then [doc] else []);
      }
    }
  }

  /** The trial id of a query task, or None when the trial has no such field. */
  function TrialIdOf(task: Task, trialIdentifier: string): Option<Json.Value>
    requires task.QueryTask?
  {
    if trialIdentifier in task.trial then Some(task.trial[trialIdentifier]) else None
  }

  /**
   * Lines 123-162 of the query handler: transform the results; with none, make
   * sure the clause's protocol has an entry; otherwise file every document.
   * Anything raised here stops the loop and escapes; otherwise the task is
   * acknowledged.
   */
  function QueryTail(s: EngineState, config: Config, hasher: Json.Value -> Digest, task: Task,
                     results: seq<SampleResults>, plugins: QueryPlugins): Outcome
    requires task.QueryTask?
  {
    var rs := plugins.transform(results);
    if |rs| == 0 then
      var pn := task.clauseProtocolNo;
      if !Json.Hashable(pn) then Outcome(s.(stopped := true), Some(OtherError))
      else Outcome(s.(matches := if pn in s.matches then s.matches else s.matches[pn := map[]],
                      queueLog := s.queueLog + [TaskDone]), None)
    else
      var f := FileAll(s.matches, s.queueTaskCount, TrialIdOf(task, config.trialIdentifier),
                       Documents(task, rs, plugins, hasher, config.runId));
      var s1 := s.(matches := f.matches, queueTaskCount := f.count);
      if f.failed then Outcome(s1.(stopped := true), Some(OtherError))
      else Outcome(s1.(queueLog := s1.queueLog + [TaskDone]), None)
  }

  /** With debug logging on, a trial without the identifier field raises before anything happens. */
  predicate DebugLookupFails(config: Config, task: Task)
    requires task.QueryTask?
  {
    config.debug && TrialIdOf(task, config.trialIdentifier).None?
  }

  /**
   * `run_query_task` as written: a retryable query error re-enqueues the task
   * AND acknowledges it, and the handler then goes on with no results and
   * acknowledges it a second time at the end.
   */
  function QueryStepAsWritten(s: EngineState, config: Config, hasher: Json.Value -> Digest, task: Task,
                              answer: DbAnswer<seq<SampleResults>>, plugins: QueryPlugins): Outcome
    requires task.QueryTask?
  {
    if DebugLookupFails(config, task) then Outcome(s, Some(OtherError))
    else match answer
      case Answer(results) => QueryTail(s, config, hasher, task, results, plugins)
      case Raised(e) =>
        if Retryable(e) then QueryTail(s.(queueLog := s.queueLog + [Put(task), TaskDone]), config, hasher, task, [], plugins)
        else QueryTail(s.(stopped := true), config, hasher, task, [], plugins)
  }

  /**
   * `run_query_task` with one acknowledgement per task: a retryable query error
   * only re-enqueues the task; the single `task_done` at the end acknowledges it.
   */
  function QueryStep(s: EngineState, config: Config, hasher: Json.Value -> Digest, task: Task,
                     answer: DbAnswer<seq<SampleResults>>, plugins: QueryPlugins): Outcome
    requires task.QueryTask?
  {
    if DebugLookupFails(config, task) then Outcome(s, Some(OtherError))
    else match answer
      case Answer(results) => QueryTail(s, config, hasher, task, results, plugins)
      case Raised(e) =>
        if Retryable(e) then QueryTail(s.(queueLog := s.queueLog + [Put(task)]), config, hasher, task, [], plugins)
        else QueryTail(s.(stopped := true), config, hasher, task, [], plugins)
  }

  /** The tail of the handler only appends one acknowledgement, when nothing escapes. */
  lemma QueryTailLog(s: EngineState, config: Config, hasher: Json.Value -> Digest, task: Task,
                     results: seq<SampleResults>, plugins: QueryPlugins, log: seq<QueueOp>)
    requires task.QueryTask?
    ensures var o := QueryTail(s.(queueLog := log), config, hasher, task, results, plugins);
            && o.raised == QueryTail(s, config, hasher, task, results, plugins).raised
            && o.state.queueLog == log + (if o.raised.None? then [TaskDone] else [])
  {
  }

  /**
   * With nothing to file (the transformed results are empty, also after a
   * query error) the clause's protocol number gets an entry in `matches`, no
   * other entry changes, `queue_task_count` stays, and nothing escapes.
   */
  lemma EmptyResultEntry(s: EngineState, config: Config, hasher: Json.Value -> Digest, task: Task,
                         answer: DbAnswer<seq<SampleResults>>, plugins: QueryPlugins)
    requires task.QueryTask? && !DebugLookupFails(config, task) && Json.Hashable(task.clauseProtocolNo)
    requires plugins.transform(if answer.Answer? then answer.value else []) == []
    ensures var o := QueryStep(s, config, hasher, task, answer, plugins);
            && o.raised.None?
            && o.state.matches.Keys == s.matches.Keys + {task.clauseProtocolNo}
            && (forall t :: t in s.matches ==> o.state.matches[t] == s.matches[t])
            && o.state.queueTaskCount == s.queueTaskCount
  {
  }

  /**
   * Filing the results of a successful query: when nothing escapes,
   * `queue_task_count` has grown by the number of reasons, a trial entry is
   * created only when there was a reason to file, and the task is
   * acknowledged once.
   */
  lemma QueryStepFiles(s: EngineState, config: Config, hasher: Json.Value -> Digest, task: Task,
                       results: seq<SampleResults>, plugins: QueryPlugins)
    requires task.QueryTask? && !DebugLookupFails(config, task)
    ensures var o := QueryStep(s, config, hasher, task, Answer(results), plugins);
            var rs := plugins.transform(results);
            o.raised.None? ==>
              && o.state.queueLog == s.queueLog + [TaskDone]
              && (|rs| > 0 ==> o.state.queueTaskCount == s.queueTaskCount + ReasonCount(rs))
              && (|rs| > 0 ==> forall t :: t in o.state.matches <==>
                                 t in s.matches || (ReasonCount(rs) > 0 && TrialIdOf(task, config.trialIdentifier) == Some(t)))
  {
    var rs := plugins.transform(results);
    if |rs| > 0 {
      var docs := Documents(task, rs, plugins, hasher, config.runId);
      DocumentsCount(task, rs, plugins, hasher, config.runId);
      if !FileAll(s.matches, s.queueTaskCount, TrialIdOf(task, config.trialIdentifier), docs).failed {
        FileAllFiles(s.matches, s.queueTaskCount, TrialIdOf(task, config.trialIdentifier), docs);
      }
    }
  }

  /**
   * The discrepancy: on a retryable query error the handler as written
   * acknowledges the task twice after one `get`, one more time than the
   * corrected handler; the corrected handler acknowledges it exactly once
   * unless filing raises, and both put the task back once.
   */
  lemma {:induction false} RetriedQueryAcknowledgedTwice(s: EngineState, config: Config, hasher: Json.Value -> Digest,
                                                         task: Task, e: ErrorClass, plugins: QueryPlugins)
    requires task.QueryTask? && Retryable(e) && !DebugLookupFails(config, task)
    ensures var w := QueryStepAsWritten(s, config, hasher, task, Raised(e), plugins);
            var c := QueryStep(s, config, hasher, task, Raised(e), plugins);
            && |w.state.queueLog| >= |s.queueLog| && w.state.queueLog[..|s.queueLog|] == s.queueLog
            && |c.state.queueLog| >= |s.queueLog| && c.state.queueLog[..|s.queueLog|] == s.queueLog
            && Puts(w.state.queueLog[|s.queueLog|..]) == multiset{task} == Puts(c.state.queueLog[|s.queueLog|..])
            && DoneCount(w.state.queueLog[|s.queueLog|..]) == DoneCount(c.state.queueLog[|s.queueLog|..]) + 1
            && (c.raised.None? ==> DoneCount(c.state.queueLog[|s.queueLog|..]) == 1)
            && (w.raised.None? ==> DoneCount(w.state.queueLog[|s.queueLog|..]) == 2)
  {
    var tailW := [Put(task), TaskDone];
    var tailC := [Put(task)];
    QueryTailLog(s, config, hasher, task, [], plugins, s.queueLog + tailW);
    QueryTailLog(s, config, hasher, task, [], plugins, s.queueLog + tailC);
    var w := QueryStepAsWritten(s, config, hasher, task, Raised(e), plugins);
    var c := QueryStep(s, config, hasher, task, Raised(e), plugins);
    var ack: seq<QueueOp> := if c.raised.None? then [TaskDone] else [];
    assert w.state.queueLog == s.queueLog + (tailW + ack);
    assert c.state.queueLog == s.queueLog + (tailC + ack);
    assert w.state.queueLog[|s.queueLog|..] == tailW + ack;
    assert c.state.queueLog[|s.queueLog|..] == tailC + ack;
    LogAppend(tailW, ack);
    LogAppend(tailC, ack);
    assert tailW[..1] == tailC;
    assert tailC[..0] == [];
  }

  // ---------------------------------------------------------------------
  // run_run_log_update_task: which clinical ids get run-history documents

  /** The protocol's clinical ids that have no run-history document yet. */
  function NewRunHistoryIds(entries: seq<string>, existing: set<string>): (r: set<string>)
    ensures forall id :: id in r <==> id in entries && id !in existing
  {
    (set id | id in entries) - existing
  }

  /** The answers of the run-log handler's database calls: the gathered `distinct`/`insert_one`, the bulk insert, `update_many`. */
  datatype RunLogAnswers = RunLogAnswers(
    gathered: DbAnswer<set<string>>,
    bulkWrite: Option<ErrorClass>,
    updateMany: Option<ErrorClass>)

  function RunHistoryCollection(config: Config): string {
    "clinical_run_history_" + config.trialMatchCollection
  }

  function RunLogCollection(config: Config): string {
    "run_log_" + config.trialMatchCollection
  }

  /**
   * `run_run_log_update_task`: a protocol not being matched is only
   * acknowledged; otherwise the run log entry is inserted, run-history
   * documents are created for the new clinical ids (no bulk write when there
   * are none), the run id is added to every id's history, and the task is
   * acknowledged.  A missing entry is a `KeyError`.
   */
  function RunLogStep(s: EngineState, config: Config, protocolNo: string, answers: RunLogAnswers): Outcome {
    var task := RunLogUpdateTask(protocolNo);
    var history := RunHistoryCollection(config);
    if protocolNo !in config.trialsToMatchOn then Outcome(s.(queueLog := s.queueLog + [TaskDone]), None)
    else if protocolNo !in config.runLogEntries then Recover(s, task, OtherError, true)
    else match answers.gathered
      case Raised(e) => Recover(s, task, e, true)
      case Answer(existing) =>
        var s1 := s.(dbWrites := s.dbWrites + [InsertRunLog(RunLogCollection(config), config.runLogEntries[protocolNo])]);
        if protocolNo !in config.clinicalRunLogEntries then Recover(s1, task, OtherError, true)
        else
          var entries := config.clinicalRunLogEntries[protocolNo];
          var newIds := NewRunHistoryIds(entries, existing);
          if newIds != {} && answers.bulkWrite.Some? then Recover(s1, task, answers.bulkWrite.value, true)
          else
            var s2 := if newIds == {} then s1 else s1.(dbWrites := s1.dbWrites + [InsertRunHistory(history, newIds)]);
            if answers.updateMany.Some? then Recover(s2, task, answers.updateMany.value, true)
            else Outcome(s2.(dbWrites := s2.dbWrites + [AddToRunHistory(history, entries, config.runId)],
                             queueLog := s2.queueLog + [TaskDone]), None)
  }

  /**
   * When the run-log handler completes, a run-history document is created for
   * exactly the protocol's clinical ids that have none, in one bulk write that
   * happens only when there is at least one such id.
   */
  lemma RunLogCreatesNewHistories(s: EngineState, config: Config, protocolNo: string, answers: RunLogAnswers)
    requires protocolNo in config.trialsToMatchOn
    requires RunLogStep(s, config, protocolNo, answers).raised.None?
    requires answers.gathered.Answer?
    ensures var o := RunLogStep(s, config, protocolNo, answers);
            && |o.state.dbWrites| >= |s.dbWrites| && o.state.dbWrites[..|s.dbWrites|] == s.dbWrites
            && var added := o.state.dbWrites[|s.dbWrites|..];
            && (o.state.queueLog == s.queueLog + [TaskDone] ==>
                  protocolNo in config.clinicalRunLogEntries
                  && var ids := NewRunHistoryIds(config.clinicalRunLogEntries[protocolNo], answers.gathered.value);
                  && ((exists k :: 0 <= k < |added| && added[k].InsertRunHistory?) <==> ids != {})
                  && (forall k :: 0 <= k < |added| && added[k].InsertRunHistory? ==>
                        added[k] == InsertRunHistory(RunHistoryCollection(config), ids)))
  {
    var o := RunLogStep(s, config, protocolNo, answers);
    if o.state.queueLog == s.queueLog + [TaskDone] {
      assert protocolNo in config.clinicalRunLogEntries && answers.updateMany.None?;
      var ids := NewRunHistoryIds(config.clinicalRunLogEntries[protocolNo], answers.gathered.value);
      var added := o.state.dbWrites[|s.dbWrites|..];
      if ids != {} {
        assert added[1] == InsertRunHistory(RunHistoryCollection(config), ids);
      }
    }
  }

  /** `run_update_task`: the update operations are written to the trial-match collection, then acknowledged. */
  function UpdateStep(s: EngineState, config: Config, task: Task, answer: Option<ErrorClass>): Outcome
    requires task.UpdateTask?
  {
    match answer
    case Some(e) => Recover(s, task, e, true)
    case None =>
      Outcome(s.(dbWrites := s.dbWrites + [BulkWrite(config.trialMatchCollection, task.ops)],
                 queueLog := s.queueLog + [TaskDone]), None)
  }

  // ---------------------------------------------------------------------
  // The engine and its handlers

  /** The part of the match engine the task handlers touch. */
  class Engine {
    var queueLog: seq<QueueOp>
    var matches: Matches
    var queueTaskCount: nat
    var stopped: bool
    var exited: bool
    var dbWrites: seq<DbWrite>
    const config: Config
    const hasher: Json.Value -> Digest

    ghost function State(): EngineState
      reads this
    {
      EngineState(queueLog, matches, queueTaskCount, stopped, exited, dbWrites)
    }

    constructor (config: Config, hasher: Json.Value -> Digest)
      ensures State() == EngineState([], map[], 0, false, false, [])
      ensures this.config == config && this.hasher == hasher
    {
      queueLog := [];
      matches := map[];
      queueTaskCount := 0;
      stopped := false;
      exited := false;
      dbWrites := [];
      this.config := config;
      this.hasher := hasher;
    }

    /**
     * `run_check_indices_task`: enqueue a build for every desired index that
     * does not exist yet (within a collection in no particular order), then
     * acknowledge.  A retryable error puts this task back after whatever was
     * enqueued before it; any other error exits the engine, stops the loop
     * and escapes without an acknowledgement.  `enqueued` names the builds in
     * the order they were put.
     */
    method RunCheckIndicesTask(task: Task, listIndexes: string -> DbAnswer<seq<seq<string>>>)
      returns (raised: Option<ErrorClass>, ghost enqueued: seq<Task>)
      modifies this
      ensures var plan := CheckIndicesPlan(config, listIndexes);
              && multiset(enqueued) == plan.puts
              && matches == old(matches) && queueTaskCount == old(queueTaskCount) && dbWrites == old(dbWrites)
              && (plan.error.None? ==>
                    queueLog == old(queueLog) + PutAll(enqueued) + [TaskDone]
                    && raised.None? && stopped == old(stopped) && exited == old(exited))
              && (plan.error.Some? && Retryable(plan.error.value) ==>
                    queueLog == old(queueLog) + PutAll(enqueued) + [Put(task), TaskDone]
                    && raised.None? && stopped == old(stopped) && exited == old(exited))
              && (plan.error.Some? && !Retryable(plan.error.value) ==>
                    queueLog == old(queueLog) + PutAll(enqueued) && raised == plan.error && stopped && exited)
    {
      var error: Option<ErrorClass>;
      if config.indices.None? {
        error, enqueued := Some(OtherError), [];
      } else {
        error, enqueued := EnqueuePlan(config.indices.value, listIndexes, config.trialMatchCollection);
      }
      if error.None? {
        queueLog := queueLog + [TaskDone];
        raised := None;
      } else if Retryable(error.value) {
        queueLog := queueLog + [Put(task), TaskDone];
        raised := None;
      } else {
        exited := true;
        stopped := true;
        raised := error;
      }
    }

    /** Lines 39-50: the scan of the configured collections, enqueueing the builds of each before reading the next. */
    method EnqueuePlan(items: seq<(string, seq<string>)>, listIndexes: string -> DbAnswer<seq<seq<string>>>, tmc: string)
      returns (error: Option<ErrorClass>, ghost enqueued: seq<Task>)
      modifies this`queueLog
      ensures queueLog == old(queueLog) + PutAll(enqueued)
      ensures multiset(enqueued) == IndexPlan(items, listIndexes, tmc).puts
      ensures error == IndexPlan(items, listIndexes, tmc).error
    {
      enqueued := [];
      error := None;
      ghost var plan := Plan(multiset{}, None);
      var j := 0;
      assert items[..0] == [];
      while j < |items| && error.None?
        invariant 0 <= j <= |items|
        invariant plan == IndexPlan(items[..j], listIndexes, tmc)
        invariant queueLog == old(queueLog) + PutAll(enqueued)
        invariant multiset(enqueued) == plan.puts && error == plan.error
      {
        IndexPlanSnoc(items, listIndexes, tmc, j);
        ghost var more;
        error, more := EnqueueCollection(items[j], listIndexes, tmc);
        LogStep(old(queueLog), enqueued, more);
        plan := Plan(plan.puts + multiset(more), error);
        enqueued := enqueued + more;
        j := j + 1;
      }
      if error.Some? {
        IndexPlanStops(items, listIndexes, tmc, j);
      } else {
        assert items[..j] == items;
      }
    }

    /** Lines 40-50 for one configured collection. */
    method EnqueueCollection(item: (string, seq<string>), listIndexes: string -> DbAnswer<seq<seq<string>>>, tmc: string)
      returns (error: Option<ErrorClass>, ghost enqueued: seq<Task>)
      modifies this`queueLog
      ensures queueLog == old(queueLog) + PutAll(enqueued)
      ensures multiset(enqueued) == CollectionPlan(item, listIndexes, tmc).puts
      ensures error == CollectionPlan(item, listIndexes, tmc).error
    {
      var c := Redirect(item.0, tmc);
      enqueued := [];
      match listIndexes(c) {
        case Raised(e) =>
          error := Some(e);
        case Answer(specs) =>
          var existing := ExistingIndexNames(specs);
          match existing {
            case Failure(e) =>
              error := Some(e);
            case Success(names) =>
              var missing := (set d | d in item.1) - names;
              assert MissingIndices(item.1, specs) == Success(missing);
              enqueued := EnqueueBuilds(c, missing);
              error := None;
          }
      }
    }

    /** Lines 49-50: one build per missing index, in the set's (unspecified) order. */
    method EnqueueBuilds(c: string, missing: set<string>) returns (ghost enqueued: seq<Task>)
      modifies this`queueLog
      ensures queueLog == old(queueLog) + PutAll(enqueued)
      ensures multiset(enqueued) == UpdateTasks(c, missing)
    {
      enqueued := [];
      var todo := missing;
      while todo != {}
        invariant todo <= missing
        invariant queueLog == old(queueLog) + PutAll(enqueued)
        invariant multiset(enqueued) == UpdateTasks(c, missing - todo)
        decreases todo
      {
        var d :| d in todo;
        UpdateTasksAdd(c, missing - todo, d);
        assert missing - (todo - {d}) == (missing - todo) + {d};
        LogStep(old(queueLog), enqueued, [IndexUpdateTask(c, d)]);
        queueLog := queueLog + [Put(IndexUpdateTask(c, d))];
        enqueued := enqueued + [IndexUpdateTask(c, d)];
        todo := todo - {d};
      }
      assert missing - todo == missing;
    }

    /**
     * `run_index_update_task`: build the index and acknowledge.  A retryable
     * error puts the task back; any other stops the loop without an
     * acknowledgement and without escaping.
     */
    method RunIndexUpdateTask(task: Task, answer: Option<ErrorClass>)
      requires task.IndexUpdateTask?
      modifies this
      ensures answer.None? ==>
                State() == old(State()).(dbWrites := old(dbWrites) + [CreateIndex(task.collection, task.index)],
                                         queueLog := old(queueLog) + [TaskDone])
      ensures answer.Some? && Retryable(answer.value) ==>
                State() == old(State()).(queueLog := old(queueLog) + [Put(task), TaskDone])
      ensures answer.Some? && !Retryable(answer.value) ==>
                State() == old(State()).(stopped := true)
    {
      match answer {
        case None =>
          dbWrites := dbWrites + [CreateIndex(task.collection, task.index)];
          queueLog := queueLog + [TaskDone];
        case Some(e) =>
          if Retryable(e) {
            queueLog := queueLog + [Put(task), TaskDone];
          } else {
            stopped := true;
          }
      }
    }

    /** `run_poison_pill`: only acknowledges. */
    method RunPoisonPill(task: Task)
      modifies this
      ensures State() == old(State()).(queueLog := old(queueLog) + [TaskDone])
    {
      queueLog := queueLog + [TaskDone];
    }

    /** `run_update_task`, against UpdateStep. */
    method RunUpdateTask(task: Task, answer: Option<ErrorClass>) returns (raised: Option<ErrorClass>)
      requires task.UpdateTask?
      modifies this
      ensures Outcome(State(), raised) == UpdateStep(old(State()), config, task, answer)
    {
      match answer {
        case None =>
          dbWrites := dbWrites + [BulkWrite(config.trialMatchCollection, task.ops)];
          queueLog := queueLog + [TaskDone];
          raised := None;
        case Some(e) =>
          raised := HandleError(task, e);
      }
    }

    /** The `except` branch shared by the update and run-log handlers, against Recover. */
    method HandleError(task: Task, e: ErrorClass) returns (raised: Option<ErrorClass>)
      modifies this
      ensures Outcome(State(), raised) == Recover(old(State()), task, e, true)
    {
      if e.AutoReconnect? {
        queueLog := queueLog + [TaskDone, Put(task)];
        raised := None;
      } else if Retryable(e) {
        queueLog := queueLog + [Put(task), TaskDone];
        raised := None;
      } else {
        raised := Some(e);
      }
    }

    /** `run_run_log_update_task`, against RunLogStep. */
    method RunRunLogUpdateTask(protocolNo: string, answers: RunLogAnswers) returns (raised: Option<ErrorClass>)
      modifies this
      ensures protocolNo !in config.trialsToMatchOn ==>
                State() == old(State()).(queueLog := old(queueLog) + [TaskDone]) && raised.None?
      ensures Outcome(State(), raised) == RunLogStep(old(State()), config, protocolNo, answers)
    {
      var task := RunLogUpdateTask(protocolNo);
      if protocolNo !in config.trialsToMatchOn {
        queueLog := queueLog + [TaskDone];
        return None;
      }
      if protocolNo !in config.runLogEntries {
        raised := HandleError(task, OtherError);
        return;
      }
      var existing: set<string>;
      match answers.gathered {
        case Raised(e) =>
          raised := HandleError(task, e);
          return;
        case Answer(ids) =>
          existing := ids;
      }
      dbWrites := dbWrites + [InsertRunLog(RunLogCollection(config), config.runLogEntries[protocolNo])];
      if protocolNo !in config.clinicalRunLogEntries {
        raised := HandleError(task, OtherError);
        return;
      }
      var entries := config.clinicalRunLogEntries[protocolNo];
      var newIds := (set id | id in entries) - existing;
      if newIds != {} {
        if answers.bulkWrite.Some? {
          raised := HandleError(task, answers.bulkWrite.value);
          return;
        }
        dbWrites := dbWrites + [InsertRunHistory(RunHistoryCollection(config), newIds)];
      }
      if answers.updateMany.Some? {
        raised := HandleError(task, answers.updateMany.value);
        return;
      }
      dbWrites := dbWrites + [AddToRunHistory(RunHistoryCollection(config), entries, config.runId)];
      queueLog := queueLog + [TaskDone];
      raised := None;
    }

    /**
     * `run_query_task` (with the single acknowledgement of QueryStep): run the
     * query, file one match document per reason, sample after sample, and
     * acknowledge.
     */
    method RunQueryTask(task: Task, answer: DbAnswer<seq<SampleResults>>, plugins: QueryPlugins)
      returns (raised: Option<ErrorClass>)
      requires task.QueryTask?
      modifies this
      ensures Outcome(State(), raised) == QueryStep(old(State()), config, hasher, task, answer, plugins)
    {
      var trialId := TrialIdOf(task, config.trialIdentifier);
      if config.debug && trialId.None? {
        return Some(OtherError);
      }
      var results: seq<SampleResults>;
      match answer {
        case Answer(r) =>
          results := r;
        case Raised(e) =>
          results := [];
          if Retryable(e) {
            queueLog := queueLog + [Put(task)];
          } else {
            stopped := true;
          }
      }
      results := plugins.transform(results);
      if |results| == 0 {
        var pn := task.clauseProtocolNo;
        if !Json.Hashable(pn) {
          stopped := true;
          return Some(OtherError);
        }
        if pn !in matches {
          matches := matches[pn := map[]];
        }
      } else {
        var failed := FileResults(task, trialId, results, plugins);
        if failed {
          stopped := true;
          return Some(OtherError);
        }
      }
      queueLog := queueLog + [TaskDone];
      raised := None;
    }

    /** Lines 128-154: file the documents of every sample in turn, stopping at the first that raises. */
    method FileResults(task: Task, trialId: Option<Json.Value>, results: seq<SampleResults>, plugins: QueryPlugins)
      returns (failed: bool)
      modifies this`matches, this`queueTaskCount
      ensures Filing(matches, queueTaskCount, failed)
              == FileAll(old(matches), old(queueTaskCount), trialId, Documents(task, results, plugins, hasher, config.runId))
    {
      failed := false;
      var i := 0;
      while i < |results|
        invariant 0 <= i <= |results|
        invariant Filing(matches, queueTaskCount, false)
                  == FileAll(old(matches), old(queueTaskCount), trialId, Documents(task, results[..i], plugins, hasher, config.runId))
      {
        ghost var before := Filing(matches, queueTaskCount, false);
        failed := FileReasons(task, trialId, results[i].reasons, plugins);
        FileResultsStep(old(matches), old(queueTaskCount), trialId, task, results, plugins, hasher, config.runId, i,
                        before, Filing(matches, queueTaskCount, failed));
        if failed {
          return;
        }
        i := i + 1;
      }
      assert results[..i] == results;
    }

    /** Lines 129-154 for one sample: count, build and file each reason's document. */
    method FileReasons(task: Task, trialId: Option<Json.Value>, reasons: seq<Json.Value>, plugins: QueryPlugins)
      returns (failed: bool)
      modifies this`matches, this`queueTaskCount
      ensures Filing(matches, queueTaskCount, failed)
              == FileAll(old(matches), old(queueTaskCount), trialId, ReasonDocuments(task, reasons, plugins, hasher, config.runId))
    {
      ghost var docs := ReasonDocuments(task, reasons, plugins, hasher, config.runId);
      failed := false;
      var j := 0;
      while j < |reasons|
        invariant 0 <= j <= |reasons|
        invariant Filing(matches, queueTaskCount, false) == FileAll(old(matches), old(queueTaskCount), trialId, docs[..j])
      {
        var doc := MatchDocument(plugins.makeDocument(task, reasons[j]), plugins.sortOrder, hasher, config.runId);
        assert doc == docs[j];
        FileAllSnoc(old(matches), old(queueTaskCount), trialId, docs, j);
        failed := FileOne(trialId, doc);
        if failed {
          FiledUntilFailure(old(matches), old(queueTaskCount), trialId, docs[..j + 1], docs);
          return;
        }
        j := j + 1;
      }
      assert docs[..j] == docs;
    }

    /** Lines 130-153 for one document: count it, then `setdefault` the trial and the sample and append. */
    method FileOne(trialId: Option<Json.Value>, doc: Doc) returns (failed: bool)
      modifies this`matches, this`queueTaskCount
      ensures Filing(matches, queueTaskCount, failed) == FileDocument(old(matches), old(queueTaskCount), trialId, doc)
    {
      queueTaskCount := queueTaskCount + 1;
      if trialId.None? || !Json.Hashable(trialId.value) {
        return true;
      }
      var t := trialId.value;
      if t !in matches {
        matches := matches[t := map[]];
      }
      if "sample_id" !in doc || !Json.Hashable(doc["sample_id"]) {
        return true;
      }
      var sample := doc["sample_id"];
      var bySample := matches[t];
      var list := if sample in bySample then bySample[sample] else [];
      matches := matches[t := bySample[sample := list + [doc]]];
      return false;
    }
  }

  /** Filing one more document after a prefix that filed cleanly. */
  lemma FileAllSnoc(m: Matches, count: nat, trialId: Option<Json.Value>, docs: seq<Doc>, j: nat)
    requires j < |docs|
    ensures var f := FileAll(m, count, trialId, docs[..j]);
            !f.failed ==> FileAll(m, count, trialId, docs[..j + 1]) == FileDocument(f.matches, f.count, trialId, docs[j])
  {
    assert docs[..j + 1][..j] == docs[..j];
  }

  /** One sample's documents filed after those of the samples before it. */
  lemma FileResultsStep(m: Matches, count: nat, trialId: Option<Json.Value>, task: Task, results: seq<SampleResults>,
                        plugins: QueryPlugins, hasher: Json.Value -> Digest, runId: string, i: nat, f: Filing, g: Filing)
    requires i < |results|
    requires f == FileAll(m, count, trialId, Documents(task, results[..i], plugins, hasher, runId)) && !f.failed
    requires g == FileAll(f.matches, f.count, trialId, ReasonDocuments(task, results[i].reasons, plugins, hasher, runId))
    ensures g == FileAll(m, count, trialId, Documents(task, results[..i + 1], plugins, hasher, runId))
    ensures g.failed ==> g == FileAll(m, count, trialId, Documents(task, results, plugins, hasher, runId))
  {
    var done := Documents(task, results[..i], plugins, hasher, runId);
    var docs := ReasonDocuments(task, results[i].reasons, plugins, hasher, runId);
    assert results[..i + 1][..i] == results[..i];
    assert Documents(task, results[..i + 1], plugins, hasher, runId) == done + docs;
    FileAllConcat(m, count, trialId, done, docs);
    if g.failed {
      DocumentsPrefix(task, results, plugins, hasher, runId, i + 1);
      FiledUntilFailure(m, count, trialId, done + docs, Documents(task, results, plugins, hasher, runId));
    }
  }

  /** The documents of a prefix of the results are a prefix of all the documents. */
  lemma {:induction false} DocumentsPrefix(task: Task, results: seq<SampleResults>, plugins: QueryPlugins,
                                           hasher: Json.Value -> Digest, runId: string, i: nat)
    requires i <= |results|
    ensures var all := Documents(task, results, plugins, hasher, runId);
            var pre := Documents(task, results[..i], plugins, hasher, runId);
            |pre| <= |all| && all[..|pre|] == pre
  {
    if i < |results| {
      assert results[..|results| - 1][..i] == results[..i];
      DocumentsPrefix(task, results[..|results| - 1], plugins, hasher, runId, i);
    } else {
      assert results[..i] == results;
    }
  }

  /** A filing that has failed on a prefix of the documents is the filing of all of them. */
  lemma FiledUntilFailure(m: Matches, count: nat, trialId: Option<Json.Value>, pre: seq<Doc>, all: seq<Doc>)
    requires |pre| <= |all| && all[..|pre|] == pre
    requires FileAll(m, count, trialId, pre).failed
    ensures FileAll(m, count, trialId, all) == FileAll(m, count, trialId, pre)
  {
    FileAllStops(m, count, trialId, pre, all[|pre|..]);
    assert pre + all[|pre|..] == all;
  }
}
