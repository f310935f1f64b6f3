/**
 * The compiled-query object model (matchengine/typing/matchengine_types.py):
 * match criteria paths, query parts and query nodes with their memoised
 * hashes and merged queries, and the container transformer plugins fill.
 *
 * `nested_object_hash` lives in a file that is not part of this model; every
 * object here carries it as the constant `hasher`, an arbitrary deterministic
 * function from nested documents to digests, so every property below holds
 * for any such hash.  Python's deep copies become Dafny's value semantics for
 * queries (maps), while the part and node objects themselves stay objects.
 */
module QueryModel {
  import opened Wrappers
  import Json

  type Digest = string

  /** A rendered query fragment: a MongoDB filter document. */
  type Query = map<string, Json.Value>

  /** One criteria map of an eligibility tree together with its nesting depth. */
  datatype MatchCriteria = MatchCriteria(criteria: Query, depth: int)

  /** The criteria maps of a path, in order, without their depths. */
  function CriteriaMaps(path: seq<MatchCriteria>): (qs: seq<Query>)
    ensures |qs| == |path|
    ensures forall i :: 0 <= i < |path| ==> qs[i] == path[i].criteria
  {
    seq(|path|, i requires 0 <= i < |path| => path[i].criteria)
  }

  /** The document `{"query": [criteria.criteria for criteria in criteria_list]}` that MatchCriterion.hash digests. */
  function CriterionDocument(path: seq<MatchCriteria>): Json.Value {
    Json.Obj(map["query" := Json.Arr(seq(|path|, i requires 0 <= i < |path| => Json.Obj(path[i].criteria)))])
  }

  /** Two paths give the same hashed document exactly when their criteria maps agree in order; depths play no part. */
  lemma CriterionDocumentIff(a: seq<MatchCriteria>, b: seq<MatchCriteria>)
    ensures CriterionDocument(a) == CriterionDocument(b) <==> CriteriaMaps(a) == CriteriaMaps(b)
  {
    if CriterionDocument(a) == CriterionDocument(b) {
      var xs := CriterionDocument(a).fields["query"].items;
      var ys := CriterionDocument(b).fields["query"].items;
      assert |a| == |xs| == |ys| == |b|;
      forall i | 0 <= i < |a|
        ensures a[i].criteria == b[i].criteria
      {
        assert xs[i] == Json.Obj(a[i].criteria) && ys[i] == Json.Obj(b[i].criteria);
      }
    }
    if CriteriaMaps(a) == CriteriaMaps(b) {
      assert |a| == |b|;
      forall i | 0 <= i < |a|
        ensures a[i].criteria == b[i].criteria
      {
        assert CriteriaMaps(a)[i] == CriteriaMaps(b)[i];
      }
      var xs := seq(|a|, i requires 0 <= i < |a| => Json.Obj(a[i].criteria));
      var ys := seq(|b|, i requires 0 <= i < |b| => Json.Obj(b[i].criteria));
      assert xs == ys;
    }
  }

  /** Hashing a path depends only on its ordered criteria maps, never on their depths. */
  lemma CriterionHashIgnoresDepth(hasher: Json.Value -> Digest, a: seq<MatchCriteria>, b: seq<MatchCriteria>)
    requires |a| == |b| && forall i :: 0 <= i < |a| ==> a[i].criteria == b[i].criteria
    ensures hasher(CriterionDocument(a)) == hasher(CriterionDocument(b))
  {
    CriterionDocumentIff(a, b);
  }

  /** One root-to-leaf path of an eligibility tree, with its memoised content hash. */
  class MatchCriterion {
    var criteriaList: seq<MatchCriteria>
    var cachedHash: Option<Digest>
    const hasher: Json.Value -> Digest

    /** The memoised hash, when there is one, is the hash of the current list. */
    ghost predicate Valid()
      reads this
    {
      cachedHash.Some? ==> cachedHash.value == hasher(CriterionDocument(criteriaList))
    }

    constructor (criteriaList: seq<MatchCriteria>, hasher: Json.Value -> Digest)
      ensures Valid()
      ensures this.criteriaList == criteriaList && cachedHash == None && this.hasher == hasher
    {
      this.criteriaList := criteriaList;
      this.cachedHash := None;
      this.hasher := hasher;
    }

    /** `add_criteria`: append one criteria at the end and forget the memoised hash. */
    method AddCriteria(criteria: MatchCriteria)
      requires Valid()
      modifies this
      ensures Valid()
      ensures criteriaList == old(criteriaList) + [criteria]
      ensures cachedHash == None
    {
      cachedHash := None;
      criteriaList := criteriaList + [criteria];
    }

    /** `hash`: the hash of the current list, memoised; a memoised value is returned as it is. */
    method Hash() returns (h: Digest)
      requires Valid()
      modifies this`cachedHash
      ensures Valid()
      ensures h == hasher(CriterionDocument(criteriaList))
      ensures old(cachedHash).Some? ==> h == old(cachedHash).value
      ensures cachedHash == Some(h)
    {
      if cachedHash.None? {
        cachedHash := Some(hasher(CriterionDocument(criteriaList)));
      }
      h := cachedHash.value;
    }
  }

  /**
   * One compiled query fragment.  Its `query` is a map, so reading it hands the
   * caller a value (Python hands out a deep copy); `set_query_attr` is the only
   * way to change it.
   */
  class QueryPart {
    var mcqInvalidating: bool
    var render: bool
    var negate: bool
    var query: Query
    var cachedHash: Option<Digest>
    const hasher: Json.Value -> Digest

    constructor (query: Query, negate: bool, render: bool, mcqInvalidating: bool,
                 cachedHash: Option<Digest>, hasher: Json.Value -> Digest)
      ensures this.query == query && this.negate == negate && this.render == render
      ensures this.mcqInvalidating == mcqInvalidating && this.cachedHash == cachedHash && this.hasher == hasher
    {
      this.mcqInvalidating := mcqInvalidating;
      this.render := render;
      this.negate := negate;
      this.query := query;
      this.cachedHash := cachedHash;
      this.hasher := hasher;
    }

    /** What `hash()` returns now: the memoised digest, or else the digest of the query. */
    ghost function CurrentHash(): Digest
      reads this
    {
      if cachedHash.Some? then cachedHash.value else hasher(Json.Obj(query))
    }

    /** `hash`: memoise the digest of the query unless one is memoised already. */
    method Hash() returns (h: Digest)
      modifies this`cachedHash
      ensures old(cachedHash).Some? ==> h == old(cachedHash).value
      ensures old(cachedHash).None? ==> h == hasher(Json.Obj(query))
      ensures cachedHash == Some(h)
      ensures CurrentHash() == old(CurrentHash())
    {
      if cachedHash.None? {
        cachedHash := Some(hasher(Json.Obj(query)));
      }
      h := cachedHash.value;
    }

    /** `set_query_attr`: change one key of the query; a memoised hash is kept, now possibly stale. */
    method SetQueryAttr(key: string, value: Json.Value)
      modifies this`query
      ensures query == old(query)[key := value]
      ensures cachedHash == old(cachedHash)
    {
      query := query[key := value];
    }

    /** `__copy__`: a new part with the same query, flags and memoised hash. */
    method Copy() returns (p: QueryPart)
      ensures fresh(p)
      ensures p.query == query && p.negate == negate && p.render == render
      ensures p.mcqInvalidating == mcqInvalidating && p.cachedHash == cachedHash && p.hasher == hasher
    {
      p := new QueryPart(query, negate, render, mcqInvalidating, cachedHash, hasher);
    }
  }

  /** What `_extract_raw_query` needs of a part: its query and whether it is rendered. */
  datatype PartView = PartView(query: Query, render: bool)

  /**
   * The dict comprehension of `_extract_raw_query`: the items of every rendered
   * part, in order, a later part overriding an earlier one on a shared key.
   */
  function Merge(parts: seq<PartView>): Query {
    if parts == [] then map[]
    else
      var last := parts[|parts| - 1];
      Merge(parts[..|parts| - 1]) + (if last.render then last.query else map[])
  }

  /** A key is in the merged query exactly when some rendered part has it. */
  lemma {:induction false} MergeKeys(parts: seq<PartView>, key: string)
    ensures key in Merge(parts) <==> exists i :: 0 <= i < |parts| && parts[i].render && key in parts[i].query
  {
    if parts != [] {
      var init := parts[..|parts| - 1];
      MergeKeys(init, key);
      if exists i :: 0 <= i < |parts| && parts[i].render && key in parts[i].query {
        var i :| 0 <= i < |parts| && parts[i].render && key in parts[i].query;
        if i < |init| {
          assert init[i] == parts[i];
        }
      }
      if exists i :: 0 <= i < |init| && init[i].render && key in init[i].query {
        var i :| 0 <= i < |init| && init[i].render && key in init[i].query;
        assert parts[i] == init[i];
      }
    }
  }

  /** The merged value of a key is the one of the last rendered part that has the key. */
  lemma {:induction false} MergeLastWins(parts: seq<PartView>, key: string, i: nat)
    requires i < |parts| && parts[i].render && key in parts[i].query
    requires forall j :: i < j < |parts| && parts[j].render ==> key !in parts[j].query
    ensures key in Merge(parts) && Merge(parts)[key] == parts[i].query[key]
  {
    var init := parts[..|parts| - 1];
    if i < |parts| - 1 {
      assert init[i] == parts[i];
      forall j | i < j < |init| && init[j].render
        ensures key !in init[j].query
      {
        assert init[j] == parts[j];
      }
      MergeLastWins(init, key, i);
    }
  }

  /** The views of a sequence of parts, in the current heap. */
  function ViewsOf(parts: seq<QueryPart>): (vs: seq<PartView>)
    reads parts
    ensures |vs| == |parts|
    ensures forall i :: 0 <= i < |parts| ==> vs[i] == PartView(parts[i].query, parts[i].render)
  {
    seq(|parts|, i requires 0 <= i < |parts| reads parts => PartView(parts[i].query, parts[i].render))
  }

  /** What `hash()` of each part would return now, in order. */
  ghost function HashesOf(parts: seq<QueryPart>): (hs: seq<Digest>)
    reads parts
    ensures |hs| == |parts|
    ensures forall i :: 0 <= i < |parts| ==> hs[i] == parts[i].CurrentHash()
  {
    if parts == [] then [] else HashesOf(parts[..|parts| - 1]) + [parts[|parts| - 1].CurrentHash()]
  }

  /** The JSON form of the node's `exclusion` (None, True or False). */
  function ExclusionValue(exclusion: Option<bool>): Json.Value {
    match exclusion
    case None => Json.Null
    case Some(b) => Json.Bool(b)
  }

  /** The document `{"_tmp1": [part hashes], "_tmp2": exclusion}` that QueryNode.hash digests. */
  function NodeDocument(partHashes: seq<Digest>, exclusion: Option<bool>): Json.Value {
    Json.Obj(map["_tmp1" := Json.Arr(seq(|partHashes|, i requires 0 <= i < |partHashes| => Json.Str(partHashes[i]))),
                 "_tmp2" := ExclusionValue(exclusion)])
  }

  /**
   * Two nodes hash the same document exactly when their part hashes agree in
   * order and their exclusion flags agree: the deduplication key of the compiler.
   */
  lemma NodeDocumentIff(a: seq<Digest>, ea: Option<bool>, b: seq<Digest>, eb: Option<bool>)
    ensures NodeDocument(a, ea) == NodeDocument(b, eb) <==> a == b && ea == eb
  {
    if NodeDocument(a, ea) == NodeDocument(b, eb) {
      var xs := NodeDocument(a, ea).fields["_tmp1"].items;
      var ys := NodeDocument(b, eb).fields["_tmp1"].items;
      assert |a| == |xs| == |ys| == |b|;
      forall i | 0 <= i < |a|
        ensures a[i] == b[i]
      {
        assert xs[i] == Json.Str(a[i]) && ys[i] == Json.Str(b[i]);
      }
      assert NodeDocument(a, ea).fields["_tmp2"] == ExclusionValue(ea);
      assert NodeDocument(b, eb).fields["_tmp2"] == ExclusionValue(eb);
    }
  }

  /** The queries of a sequence of parts. */
  function QueriesOf(parts: seq<QueryPart>): (qs: seq<Query>)
    reads parts
    ensures |qs| == |parts|
    ensures forall i :: 0 <= i < |parts| ==> qs[i] == parts[i].query
  {
    seq(|parts|, i requires 0 <= i < |parts| reads parts => parts[i].query)
  }

  /** The generator of `get_query_part_by_key`: the index of the first query that has `key`. */
  function FirstWithKey(qs: seq<Query>, key: string): (r: Option<nat>)
    ensures r.None? <==> forall i :: 0 <= i < |qs| ==> key !in qs[i]
    ensures r.Some? ==> r.value < |qs| && key in qs[r.value]
    ensures r.Some? ==> forall j :: 0 <= j < r.value ==> key !in qs[j]
  {
    if qs == [] then None
    else if key in qs[0] then Some(0)
    else match FirstWithKey(qs[1..], key)
      case None => None
      case Some(i) => Some(i + 1)
  }

  /**
   * `get_query_part_value_by_key`: the value of `key` in the first query that has
   * it, else Python's None.  The `default` is never returned: the part found
   * always has the key, and no part found gives None.
   */
  function ValueByKey(qs: seq<Query>, key: string, default: Json.Value): (r: Option<Json.Value>)
    ensures r.None? <==> forall i :: 0 <= i < |qs| ==> key !in qs[i]
    ensures r.Some? ==> exists i :: 0 <= i < |qs| && key in qs[i] && r.value == qs[i][key]
                                     && forall j :: 0 <= j < i ==> key !in qs[j]
  {
    match FirstWithKey(qs, key)
    case None => None
    case Some(i) => Some(Json.Get(qs[i], key, default))
  }

  /** Python's `any(flags)`. */
  function AnyFlag(flags: seq<bool>): (r: bool)
    ensures r <==> exists i :: 0 <= i < |flags| && flags[i]
  {
    if flags == [] then false else flags[0] || AnyFlag(flags[1..])
  }

  /** The `mcq_invalidating` flags of a sequence of parts. */
  function McqFlagsOf(parts: seq<QueryPart>): (fs: seq<bool>)
    reads parts
    ensures |fs| == |parts|
    ensures forall i :: 0 <= i < |parts| ==> fs[i] == parts[i].mcqInvalidating
  {
    seq(|parts|, i requires 0 <= i < |parts| reads parts => parts[i].mcqInvalidating)
  }

  /**
   * An AND-group of query parts at one level of the criteria tree, with its
   * memoised node hash, merged query and merged-query hash.  The sibling-node
   * links the compiler sets are not modelled.
   */
  class QueryNode {
    var queryLevel: string
    var queryDepth: int
    var queryParts: seq<QueryPart>
    var exclusion: Option<bool>
    var isFinalized: bool
    var cachedHash: Option<Digest>
    var rawQuery: Option<Query>
    var rawQueryHash: Option<Digest>
    const hasher: Json.Value -> Digest

    /** The parts hash with the same function as the node. */
    ghost predicate SharesHasher()
      reads this
    {
      forall i :: 0 <= i < |queryParts| ==> queryParts[i].hasher == hasher
    }

    /** Every memoised value equals what would be computed from the parts now. */
    ghost predicate CachesCoherent()
      reads this, queryParts
    {
      && (cachedHash.Some? ==> cachedHash.value == hasher(NodeDocument(HashesOf(queryParts), exclusion)))
      && (rawQuery.Some? ==> rawQuery.value == Merge(ViewsOf(queryParts)))
      && (rawQueryHash.Some? ==> rawQueryHash.value == hasher(Json.Obj(Merge(ViewsOf(queryParts)))))
    }

    constructor (queryLevel: string, queryDepth: int, queryParts: seq<QueryPart>, exclusion: Option<bool>,
                 isFinalized: bool, cachedHash: Option<Digest>, rawQuery: Option<Query>,
                 rawQueryHash: Option<Digest>, hasher: Json.Value -> Digest)
      requires forall i :: 0 <= i < |queryParts| ==> queryParts[i].hasher == hasher
      ensures SharesHasher()
      ensures this.queryLevel == queryLevel && this.queryDepth == queryDepth && this.queryParts == queryParts
      ensures this.exclusion == exclusion && this.isFinalized == isFinalized && this.cachedHash == cachedHash
      ensures this.rawQuery == rawQuery && this.rawQueryHash == rawQueryHash && this.hasher == hasher
    {
      this.isFinalized := isFinalized;
      this.queryLevel := queryLevel;
      this.queryDepth := queryDepth;
      this.queryParts := queryParts;
      this.exclusion := exclusion;
      this.cachedHash := cachedHash;
      this.rawQuery := rawQuery;
      this.rawQueryHash := rawQueryHash;
      this.hasher := hasher;
    }

    /**
     * `hash`: unless memoised, digest the hashes of the parts (each part
     * memoising its own) together with the exclusion flag.
     */
    method Hash() returns (h: Digest)
      requires SharesHasher()
      modifies this`cachedHash, queryParts
      ensures old(cachedHash).Some? ==> h == old(cachedHash).value
      ensures old(cachedHash).None? ==> h == hasher(NodeDocument(old(HashesOf(queryParts)), exclusion))
      ensures cachedHash == Some(h)
      ensures old(cachedHash).None? ==> forall i :: 0 <= i < |queryParts| ==> queryParts[i].cachedHash.Some?
      ensures old(cachedHash).Some? ==> forall i :: 0 <= i < |queryParts| ==> queryParts[i].cachedHash == old(queryParts[i].cachedHash)
      ensures forall i :: 0 <= i < |queryParts| ==>
                queryParts[i].query == old(queryParts[i].query) && queryParts[i].render == old(queryParts[i].render)
                && queryParts[i].mcqInvalidating == old(queryParts[i].mcqInvalidating)
                && queryParts[i].negate == old(queryParts[i].negate)
                && queryParts[i].CurrentHash() == old(queryParts[i].CurrentHash())
    {
      if cachedHash.None? {
        ghost var expected := HashesOf(queryParts);
        var hashes: seq<Digest> := [];
        var i := 0;
        while i < |queryParts|
          invariant i <= |queryParts|
          invariant hashes == expected[..i]
          invariant forall j :: 0 <= j < i ==> queryParts[j].cachedHash.Some?
          invariant forall j :: 0 <= j < |queryParts| ==>
                      queryParts[j].query == old(queryParts[j].query) && queryParts[j].render == old(queryParts[j].render)
                      && queryParts[j].mcqInvalidating == old(queryParts[j].mcqInvalidating)
                      && queryParts[j].negate == old(queryParts[j].negate)
                      && queryParts[j].CurrentHash() == expected[j]
        {
          var ph := queryParts[i].Hash();
          hashes := hashes + [ph];
          i := i + 1;
        }
        assert hashes == expected;
        cachedHash := Some(hasher(NodeDocument(hashes, exclusion)));
      }
      h := cachedHash.value;
    }

    /** `add_query_part`: append the part and forget all three memoised values; finalisation is untouched. */
    method AddQueryPart(part: QueryPart)
      requires SharesHasher() && part.hasher == hasher
      modifies this`cachedHash, this`rawQuery, this`rawQueryHash, this`queryParts
      ensures SharesHasher() && CachesCoherent()
      ensures queryParts == old(queryParts) + [part]
      ensures cachedHash == None && rawQuery == None && rawQueryHash == None
      ensures isFinalized == old(isFinalized)
    {
      cachedHash := None;
      rawQuery := None;
      rawQueryHash := None;
      queryParts := queryParts + [part];
    }

    /** `_extract_raw_query`: the merged query of the rendered parts. */
    function ExtractRawQuery(): (q: Query)
      reads this, queryParts
      ensures forall key :: key in q <==> exists i :: 0 <= i < |queryParts| && queryParts[i].render && key in queryParts[i].query
    {
      var views := ViewsOf(queryParts);
      assert forall key :: key in Merge(views) <==> exists i :: 0 <= i < |views| && views[i].render && key in views[i].query by {
        forall key {
          MergeKeys(views, key);
        }
      }
      Merge(views)
    }

    /** `extract_raw_query`: memoised once the node is finalised, recomputed on every call before. */
    method ExtractRawQueryCached() returns (q: Query)
      modifies this`rawQuery
      ensures isFinalized && old(rawQuery).Some? ==> q == old(rawQuery).value && rawQuery == old(rawQuery)
      ensures isFinalized && old(rawQuery).None? ==> q == ExtractRawQuery() && rawQuery == Some(q)
      ensures !isFinalized ==> q == ExtractRawQuery() && rawQuery == old(rawQuery)
      ensures CachesCoherent() == old(CachesCoherent())
    {
      if isFinalized {
        if rawQuery.None? {
          rawQuery := Some(ExtractRawQuery());
        }
        q := rawQuery.value;
      } else {
        q := ExtractRawQuery();
      }
    }

    /**
     * `raw_query_hash`: a memoised value is returned as it is; otherwise an
     * unfinalised node is an error, and a finalised one memoises the hash of
     * its (memoised) merged query.
     */
    method RawQueryHash() returns (r: Result<Digest, string>)
      modifies this`rawQuery, this`rawQueryHash
      ensures old(rawQueryHash).Some? ==> r == Success(old(rawQueryHash).value) && rawQuery == old(rawQuery)
      ensures old(rawQueryHash).None? && !isFinalized ==> r.Failure? && rawQuery == old(rawQuery)
      ensures old(rawQueryHash).None? && isFinalized ==>
                (r.Success? && rawQuery.Some?
                 && r.value == hasher(Json.Obj(rawQuery.value))
                 && rawQuery.value == (if old(rawQuery).Some? then old(rawQuery).value else ExtractRawQuery()))
      ensures r.Success? ==> rawQueryHash == Some(r.value)
      ensures r.Failure? ==> rawQueryHash == None
      ensures old(CachesCoherent()) ==> CachesCoherent()
      ensures old(CachesCoherent()) && r.Success? ==> r.value == hasher(Json.Obj(ExtractRawQuery()))
    {
      if rawQueryHash.None? {
        if !isFinalized {
          return Failure("Query node is not finalized");
        }
        var q := ExtractRawQueryCached();
        rawQueryHash := Some(hasher(Json.Obj(q)));
      }
      r := Success(rawQueryHash.value);
    }

    /** `finalize`: mark the node finalised; nothing else changes. */
    method Finalize()
      modifies this`isFinalized
      ensures isFinalized
    {
      isFinalized := true;
    }

    /** `get_query_part_by_key`: the first part whose query has `key`, else None. */
    function GetQueryPartByKey(key: string): (r: Option<QueryPart>)
      reads this, queryParts
      ensures r.None? <==> forall i :: 0 <= i < |queryParts| ==> key !in queryParts[i].query
      ensures r.Some? ==> exists i :: 0 <= i < |queryParts| && r.value == queryParts[i] && key in queryParts[i].query
                                      && forall j :: 0 <= j < i ==> key !in queryParts[j].query
    {
      match FirstWithKey(QueriesOf(queryParts), key)
      case None => None
      case Some(i) => Some(queryParts[i])
    }

    /** `get_query_part_value_by_key`: that part's value for `key`; None (never `default`) when no part has it. */
    function GetQueryPartValueByKey(key: string, default: Json.Value): (r: Option<Json.Value>)
      reads this, queryParts
      ensures r.None? <==> forall i :: 0 <= i < |queryParts| ==> key !in queryParts[i].query
      ensures r.Some? ==> exists i :: 0 <= i < |queryParts| && key in queryParts[i].query
                                      && r.value == queryParts[i].query[key]
                                      && forall j :: 0 <= j < i ==> key !in queryParts[j].query
    {
      ValueByKey(QueriesOf(queryParts), key, default)
    }

    /** `mcq_invalidating`: whether any part is MCQ-invalidating. */
    function McqInvalidating(): (r: bool)
      reads this, queryParts
      ensures r <==> exists i :: 0 <= i < |queryParts| && queryParts[i].mcqInvalidating
    {
      AnyFlag(McqFlagsOf(queryParts))
    }

    /**
     * `__copy__`: a new node over fresh copies of the parts (each keeping its
     * memoised hash), with the same level, depth, flags and memoised values.
     */
    method Copy() returns (n: QueryNode)
      requires SharesHasher()
      ensures fresh(n) && n.SharesHasher()
      ensures n.queryLevel == queryLevel && n.queryDepth == queryDepth && n.exclusion == exclusion
      ensures n.isFinalized == isFinalized && n.cachedHash == cachedHash
      ensures n.rawQuery == rawQuery && n.rawQueryHash == rawQueryHash && n.hasher == hasher
      ensures |n.queryParts| == |queryParts|
      ensures forall i :: 0 <= i < |queryParts| ==>
                fresh(n.queryParts[i]) && n.queryParts[i].query == queryParts[i].query
                && n.queryParts[i].negate == queryParts[i].negate && n.queryParts[i].render == queryParts[i].render
                && n.queryParts[i].mcqInvalidating == queryParts[i].mcqInvalidating
                && n.queryParts[i].cachedHash == queryParts[i].cachedHash
    {
      var copies: seq<QueryPart> := [];
      var i := 0;
      while i < |queryParts|
        invariant i <= |queryParts| && |copies| == i
        invariant forall j :: 0 <= j < i ==>
                    fresh(copies[j]) && copies[j].query == queryParts[j].query
                    && copies[j].negate == queryParts[j].negate && copies[j].render == queryParts[j].render
                    && copies[j].mcqInvalidating == queryParts[j].mcqInvalidating
                    && copies[j].cachedHash == queryParts[j].cachedHash && copies[j].hasher == hasher
      {
        var p := queryParts[i].Copy();
        copies := copies + [p];
        i := i + 1;
      }
      n := new QueryNode(queryLevel, queryDepth, copies, exclusion, isFinalized, cachedHash,
                         rawQuery, rawQueryHash, hasher);
    }
  }

  /** The parts a transformer plugin returns for one criteria key. */
  class QueryTransformerResult {
    var results: seq<QueryPart>
    const hasher: Json.Value -> Digest

    constructor Empty(hasher: Json.Value -> Digest)
      ensures results == [] && this.hasher == hasher
    {
      results := [];
      this.hasher := hasher;
    }

    /**
     * The constructor: with no clause the container is empty; a clause without
     * `negate` is an error; otherwise the container holds that one part.
     */
    static method Create(queryClause: Option<Query>, negate: Option<bool>, hasher: Json.Value -> Digest,
                         render: bool := true, mcqInvalidating: bool := false)
      returns (r: Result<QueryTransformerResult, string>)
      ensures r.Failure? <==> queryClause.Some? && negate.None?
      ensures r.Success? ==> fresh(r.value) && r.value.hasher == hasher
      ensures r.Success? && queryClause.None? ==> r.value.results == []
      ensures r.Success? && queryClause.Some? ==>
                |r.value.results| == 1 && fresh(r.value.results[0])
                && r.value.results[0].query == queryClause.value && r.value.results[0].negate == negate.value
                && r.value.results[0].render == render && r.value.results[0].mcqInvalidating == mcqInvalidating
                && r.value.results[0].cachedHash == None && r.value.results[0].hasher == hasher
    {
      var container := new QueryTransformerResult.Empty(hasher);
      if queryClause.Some? {
        if negate.Some? {
          container.AddResult(queryClause.value, negate.value, render, mcqInvalidating);
        } else {
          return Failure("If adding query result directly to results container, both Negate and Query must be specified");
        }
      }
      r := Success(container);
    }

    /** `add_result`: append exactly one new part, rendered and not MCQ-invalidating unless told otherwise. */
    method AddResult(queryClause: Query, negate: bool, render: bool := true, mcqInvalidating: bool := false)
      modifies this`results
      ensures |results| == |old(results)| + 1 && results[..|old(results)|] == old(results)
      ensures fresh(results[|results| - 1])
      ensures results[|results| - 1].query == queryClause && results[|results| - 1].negate == negate
      ensures results[|results| - 1].render == render && results[|results| - 1].mcqInvalidating == mcqInvalidating
      ensures results[|results| - 1].cachedHash == None && results[|results| - 1].hasher == hasher
    {
      var part := new QueryPart(queryClause, negate, render, mcqInvalidating, None, hasher);
      results := results + [part];
    }
  }
}
