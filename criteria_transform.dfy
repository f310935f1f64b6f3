/**
 * The configuration side of `MatchCriteriaTransform`: the constructor reads the
 * engine configuration and the listings of the resource directories, fills in
 * defaults, builds the projection maps, and validates and normalises the
 * custom trial-status key.  Directory listings are inputs (the result of
 * `os.listdir` for each directory, in order).
 */
module CriteriaTransform {
  import opened Wrappers
  import Json
  import Text

  // ---------------------------------------------------------------------------
  // Mapping constants of the class
  // ---------------------------------------------------------------------------

  /** `level_mapping`: the trial level each curated level key refers to. */
  const LevelMapping: map<string, string> := map["dose_level" := "dose", "arm" := "arm", "step" := "step"]
  /** `suspension_mapping`: the suspension flag of each suspendable level. */
  const SuspensionMapping: map<string, string> := map["dose_level" := "level_suspended", "arm" := "arm_suspended"]
  /** `internal_id_mapping`: the internal-id field of each level. */
  const InternalIdMapping: map<string, string> :=
    map["dose" := "level_internal_id", "step" := "step_internal_id", "arm" := "arm_internal_id"]
  /** `code_mapping`: the code field of each level. */
  const CodeMapping: map<string, string> := map["step" := "step_code", "arm" := "arm_code", "dose" := "level_code"]
  /** `primary_collection_unique_field`. */
  const PrimaryCollectionUniqueField: string := "_id"

  /**
   * The mappings fit together: every level that `level_mapping` names has an
   * internal-id field and a code field, and only levels `level_mapping`
   * knows can be suspended.
   */
  lemma MappingsAgree()
    ensures LevelMapping.Values == InternalIdMapping.Keys == CodeMapping.Keys
    ensures SuspensionMapping.Keys <= LevelMapping.Keys
    ensures forall k :: k in SuspensionMapping ==> LevelMapping[k] in InternalIdMapping
  {
    assert "dose" == LevelMapping["dose_level"];
    assert "arm" == LevelMapping["arm"];
    assert "step" == LevelMapping["step"];
  }

  // ---------------------------------------------------------------------------
  // Resource paths
  // ---------------------------------------------------------------------------

  /** POSIX `os.path.basename`: the text after the last `/`. */
  function Basename(p: string): (r: string)
    ensures |r| <= |p| && r == p[|p| - |r|..]
    ensures '/' !in r
    ensures |r| < |p| ==> p[|p| - |r| - 1] == '/'
  {
    if p == [] || p[|p| - 1] == '/' then [] else Basename(p[..|p| - 1]) + [p[|p| - 1]]
  }

  /** POSIX `os.path.join(dir, name)`: an absolute name replaces the directory. */
  function Join(dir: string, name: string): (r: string)
    ensures |name| > 0 && name[0] == '/' ==> r == name
    ensures !(|name| > 0 && name[0] == '/') ==>
      |dir| + |name| <= |r| <= |dir| + |name| + 1 && r[..|dir|] == dir && r[|r| - |name|..] == name
  {
    if |name| > 0 && name[0] == '/' then name
    else if dir == [] || dir[|dir| - 1] == '/' then dir + name
    else dir + "/" + name
  }

  /** One listed file: the key it is filed under and the path stored for it. */
  datatype Entry = Entry(name: string, path: string)

  /** `resource_paths[os.path.basename(f)] = os.path.join(dir, f)` as an entry. */
  function EntryOf(dir: string, file: string): (e: Entry)
    ensures '/' !in e.name
  {
    Entry(Basename(file), Join(dir, file))
  }

  /** The entries of one directory, in listing order. */
  function DirEntries(dir: string, files: seq<string>): (es: seq<Entry>)
    ensures |es| == |files|
    ensures forall k :: 0 <= k < |files| ==> es[k] == EntryOf(dir, files[k])
  {
    seq(|files|, k requires 0 <= k < |files| => EntryOf(dir, files[k]))
  }

  /** One more listed file gives one more entry at the end. */
  lemma DirEntriesSnoc(dir: string, files: seq<string>, j: int)
    requires 0 <= j < |files|
    ensures DirEntries(dir, files[..j + 1]) == DirEntries(dir, files[..j]) + [EntryOf(dir, files[j])]
  {
    var longer := DirEntries(dir, files[..j + 1]);
    var shorter := DirEntries(dir, files[..j]);
    forall k | 0 <= k < j
      ensures longer[k] == shorter[k]
    {
      assert files[..j + 1][k] == files[..j][k];
    }
  }

  /** The entries of all directories, directory after directory. */
  function Entries(dirs: seq<(string, seq<string>)>): seq<Entry> {
    if dirs == [] then []
    else Entries(dirs[..|dirs| - 1]) + DirEntries(dirs[|dirs| - 1].0, dirs[|dirs| - 1].1)
  }

  /** Dictionary assignment of each entry in turn: `d[name] = path`. */
  function Assign(es: seq<Entry>): map<string, string> {
    if es == [] then map[] else Assign(es[..|es| - 1])[es[|es| - 1].name := es[|es| - 1].path]
  }

  /** `resource_paths` after the nested loops over the directories and their files. */
  function ResourcePaths(dirs: seq<(string, seq<string>)>): map<string, string> {
    Assign(Entries(dirs))
  }

  /** A name is a key exactly when some entry carries it. */
  lemma {:induction false} AssignKeys(es: seq<Entry>, name: string)
    ensures name in Assign(es) <==> exists i :: 0 <= i < |es| && es[i].name == name
  {
    if es != [] {
      var init := es[..|es| - 1];
      AssignKeys(init, name);
      if name in Assign(init) {
        var i :| 0 <= i < |init| && init[i].name == name;
        assert es[i].name == name;
      }
      if exists i :: 0 <= i < |es| && es[i].name == name {
        var i :| 0 <= i < |es| && es[i].name == name;
        if i < |init| {
          assert init[i].name == name;
        }
      }
    }
  }

  /** The last entry carrying a name decides the stored path. */
  lemma {:induction false} AssignLastWins(es: seq<Entry>, i: int)
    requires 0 <= i < |es|
    requires forall j :: i < j < |es| ==> es[j].name != es[i].name
    ensures es[i].name in Assign(es) && Assign(es)[es[i].name] == es[i].path
  {
    if i < |es| - 1 {
      AssignLastWins(es[..|es| - 1], i);
    }
  }

  /** Assigning two runs of entries is assigning each, the later one overriding. */
  lemma {:induction false} AssignConcat(a: seq<Entry>, b: seq<Entry>)
    ensures Assign(a + b) == Assign(a) + Assign(b)
  {
    if b != [] {
      var b' := b[..|b| - 1];
      var e := b[|b| - 1];
      assert (a + b)[..|a + b| - 1] == a + b';
      AssignConcat(a, b');
      assert Assign(b) == Assign(b')[e.name := e.path];
      assert Assign(a + b) == (Assign(a) + Assign(b'))[e.name := e.path];
      UpdateUnion(Assign(a), Assign(b'), e.name, e.path);
    } else {
      assert a + b == a;
    }
  }

  /** Updating a union updates its right-hand side. */
  lemma UpdateUnion(m: map<string, string>, n: map<string, string>, k: string, v: string)
    ensures (m + n)[k := v] == m + n[k := v]
  {
  }

  /** Assigning one more entry on top of a base map. */
  lemma AssignSnoc(base: map<string, string>, es: seq<Entry>, e: Entry)
    ensures base + Assign(es + [e]) == (base + Assign(es))[e.name := e.path]
  {
    assert (es + [e])[..|es|] == es;
    UpdateUnion(base, Assign(es), e.name, e.path);
  }

  /**
   * A later resource directory overrides the earlier ones on a shared file
   * name, and leaves every other name where the earlier ones put it.
   */
  lemma LaterDirectoryOverrides(dirs: seq<(string, seq<string>)>, dir: string, files: seq<string>)
    ensures ResourcePaths(dirs + [(dir, files)]) == ResourcePaths(dirs) + Assign(DirEntries(dir, files))
  {
    assert (dirs + [(dir, files)])[..|dirs|] == dirs;
    AssignConcat(Entries(dirs), DirEntries(dir, files));
  }

  /** Every key of `resource_paths` is the basename of a listed file. */
  lemma ResourcePathKeys(dirs: seq<(string, seq<string>)>, name: string)
    ensures name in ResourcePaths(dirs) <==>
      exists i :: 0 <= i < |Entries(dirs)| && Entries(dirs)[i].name == name
  {
    var es := Entries(dirs);
    assert ResourcePaths(dirs) == Assign(es);
    AssignKeys(es, name);
    if name in ResourcePaths(dirs) {
      var i :| 0 <= i < |es| && es[i].name == name;
      assert Entries(dirs)[i].name == name;
    }
  }

  // ---------------------------------------------------------------------------
  // Configuration values
  // ---------------------------------------------------------------------------

  /** Why the constructor gives up: a `KeyError`, a `TypeError`/`AttributeError`, or `exit(1)`. */
  datatype ConfigError =
    | MissingKey(key: string)
    | WrongType(key: string)
    | AccrualValuesMissing

  /**
   * What Python's `set(v)` / a comprehension over `v` yields: list items,
   * dict keys, or single characters; any other value, or a list with a list
   * or dict in it, is rejected.
   */
  function Elements(v: Json.Value, key: string): (r: Result<set<Json.Value>, ConfigError>)
    ensures r.Failure? <==>
      (v.Null? || v.Bool? || v.Int? || (v.Arr? && exists x :: x in v.items && !Json.Hashable(x)))
    ensures r.Failure? ==> r.error == WrongType(key)
    ensures r.Success? && v.Arr? ==> forall x :: x in r.value <==> x in v.items
    ensures r.Success? && v.Obj? ==> forall x :: x in r.value <==> x.Str? && x.s in v.fields
    ensures r.Success? && v.Str? ==> forall x :: x in r.value <==> exists c :: c in v.s && x == Json.Str([c])
  {
    match v
    case Arr(items) =>
      if forall x :: x in items ==> Json.Hashable(x) then Success(set x | x in items) else Failure(WrongType(key))
    case Obj(fields) => Success(set k | k in fields :: Json.Str(k))
    case Str(s) => Success(set c | c in s :: Json.Str([c]))
    case _ => Failure(WrongType(key))
  }

  /** `{field: 1 for field in fields}`. */
  function FieldProjection(fields: set<Json.Value>): (m: map<Json.Value, int>)
    ensures m.Keys == fields
    ensures forall f :: f in m ==> m[f] == 1
  {
    map f | f in fields :: 1
  }

  /**
   * `projections`: one field projection per configured collection; a value
   * that is not a dict, or a collection whose fields cannot be iterated,
   * stops the constructor.
   */
  function Projections(v: Json.Value): (r: Result<map<string, map<Json.Value, int>>, ConfigError>)
    ensures r.Failure? <==> !v.Obj? || exists c :: c in v.fields && Elements(v.fields[c], "projections").Failure?
    ensures r.Success? ==> r.value.Keys == v.fields.Keys
    ensures r.Success? ==> forall c, f :: c in r.value ==>
      (f in r.value[c] <==> f in Elements(v.fields[c], "projections").value)
    ensures r.Success? ==> forall c, f :: c in r.value && f in r.value[c] ==> r.value[c][f] == 1
  {
    if !v.Obj? then Failure(WrongType("projections"))
    else if exists c :: c in v.fields && Elements(v.fields[c], "projections").Failure? then Failure(WrongType("projections"))
    else Success(map c | c in v.fields :: FieldProjection(Elements(v.fields[c], "projections").value))
  }

  // ---------------------------------------------------------------------------
  // Accrual values
  // ---------------------------------------------------------------------------

  /** A string that `lower().strip()` leaves alone: no ASCII capital, no whitespace at either end. */
  predicate Normalised(s: string) {
    && Text.NoCapitals(s)
    && (s != [] ==> !Text.IsSpace(s[0]) && !Text.IsSpace(s[|s| - 1]))
  }

  /** One accrual value as stored: strings lowered, then stripped; anything else as given. */
  function NormaliseAccrualValue(v: Json.Value): (r: Json.Value)
    ensures !v.Str? ==> r == v
    ensures v.Str? ==> r.Str? && Normalised(r.s)
  {
    if v.Str? then
      var t := Text.Strip(Text.Lower(v.s));
      Text.StripOfLowerIsLower(v.s);
      Json.Str(t)
    else v
  }

  /** The strings normalisation leaves unchanged are exactly the normalised ones. */
  lemma NormaliseFixedPoints(s: string)
    ensures NormaliseAccrualValue(Json.Str(s)) == Json.Str(s) <==> Normalised(s)
  {
    if Normalised(s) {
      Text.LowerOfLowered(s);
      Text.StripOfStripped(s);
    }
  }

  /** Normalising twice is normalising once. */
  lemma NormaliseIdempotent(v: Json.Value)
    ensures NormaliseAccrualValue(NormaliseAccrualValue(v)) == NormaliseAccrualValue(v)
  {
    if v.Str? {
      NormaliseFixedPoints(NormaliseAccrualValue(v).s);
    }
  }

  /** One more input gives one more output at the end. */
  lemma NormaliseSnoc(vals: seq<Json.Value>, i: int)
    requires 0 <= i < |vals|
    ensures NormaliseAccrualValues(vals[..i + 1]) == NormaliseAccrualValues(vals[..i]) + [NormaliseAccrualValue(vals[i])]
  {
  }

  /** Appending the next normalised value extends the normalised prefix by one. */
  lemma AppendStep(acc: seq<Json.Value>, vals: seq<Json.Value>, i: int, stored: Json.Value)
    requires 0 <= i < |vals| && stored == NormaliseAccrualValue(vals[i])
    ensures acc + NormaliseAccrualValues(vals[..i]) + [stored] == acc + NormaliseAccrualValues(vals[..i + 1])
  {
    NormaliseSnoc(vals, i);
  }

  /** The list of accrual values: one output per input, in order. */
  function NormaliseAccrualValues(vals: seq<Json.Value>): (r: seq<Json.Value>)
    ensures |r| == |vals|
    ensures forall i :: 0 <= i < |vals| ==> r[i] == NormaliseAccrualValue(vals[i])
  {
    seq(|vals|, i requires 0 <= i < |vals| => NormaliseAccrualValue(vals[i]))
  }

  /**
   * What `for val in v` visits, in order: list items or single characters.
   * Dicts are refused here (their key order is not part of the model);
   * `None`, booleans and numbers are not iterable.
   */
  function IterItems(v: Json.Value): (r: Result<seq<Json.Value>, ConfigError>)
    ensures r.Success? <==> v.Arr? || v.Str?
    ensures v.Arr? ==> r == Success(v.items)
    ensures v.Str? ==> |r.value| == |v.s| && forall i :: 0 <= i < |v.s| ==> r.value[i] == Json.Str([v.s[i]])
  {
    match v
    case Arr(items) => Success(items)
    case Str(s) => Success(seq(|s|, i requires 0 <= i < |s| => Json.Str([s[i]])))
    case _ => Failure(WrongType("open_to_accrual_values"))
  }

  /** The custom status key: the field to read and the values meaning "open to accrual". */
  datatype StatusKey = StatusKey(keyName: Json.Value, openToAccrualValues: seq<Json.Value>)

  /** `trial_status_key` as configured (`None` when absent or null). */
  function StatusKeyOf(v: Json.Value): (r: Result<Option<StatusKey>, ConfigError>)
    ensures v.Null? ==> r == Success(None)
    ensures r == Failure(AccrualValuesMissing) <==>
      v.Obj? && Json.Get(v.fields, "open_to_accrual_values", Json.Null).Null?
    ensures r.Success? && r.value.Some? ==> (
      && v.Obj?
      && r.value.value.keyName == Json.Get(v.fields, "key_name", Json.Null)
      && IterItems(Json.Get(v.fields, "open_to_accrual_values", Json.Null)).Success?
      && var given := IterItems(Json.Get(v.fields, "open_to_accrual_values", Json.Null)).value;
         var stored := r.value.value.openToAccrualValues;
         |stored| == |given| && forall i :: 0 <= i < |given| ==> stored[i] == NormaliseAccrualValue(given[i]))
  {
    if v.Null? then Success(None)
    else if !v.Obj? then Failure(WrongType("trial_status_key"))
    else
      var keyName := Json.Get(v.fields, "key_name", Json.Null);
      var accrual := Json.Get(v.fields, "open_to_accrual_values", Json.Null);
      if accrual.Null? then Failure(AccrualValuesMissing)
      else match IterItems(accrual)
        case Failure(e) => Failure(e)
        case Success(items) => Success(Some(StatusKey(keyName, NormaliseAccrualValues(items))))
  }

  // ---------------------------------------------------------------------------
  // The constructor
  // ---------------------------------------------------------------------------

  /** The attributes the constructor sets. */
  datatype Settings = Settings(
    resourcePaths: map<string, string>,
    ctmlCollectionMappings: Json.Value,
    projections: map<string, map<Json.Value, int>>,
    trialCollection: Json.Value,
    trialIdentifier: Json.Value,
    matchTrialLinkId: Json.Value,
    validClinicalReasons: set<Json.Value>,
    trialStatusKey: Option<StatusKey>)

  /** The outcome of `MatchCriteriaTransform(config, resource_dirs)`, in the order Python meets its errors. */
  function Configure(config: map<string, Json.Value>, dirs: seq<(string, seq<string>)>): (r: Result<Settings, ConfigError>)
    ensures "ctml_collection_mappings" !in config ==> r == Failure(MissingKey("ctml_collection_mappings"))
    ensures r.Success? ==> "ctml_collection_mappings" in config && "projections" in config
    ensures r.Success? ==> r.value.resourcePaths == ResourcePaths(dirs)
    ensures r.Success? ==> r.value.ctmlCollectionMappings == config["ctml_collection_mappings"]
    ensures r.Success? ==> Projections(config["projections"]) == Success(r.value.projections)
    ensures r.Success? ==> (
      r.value.trialCollection ==
      (if "trial_collection" in config then config["trial_collection"] else Json.Str("trial")))
    ensures r.Success? ==> (
      r.value.trialIdentifier ==
      (if "trial_identifier" in config then config["trial_identifier"] else Json.Str("protocol_no")))
    ensures r.Success? ==> (
      r.value.matchTrialLinkId ==
      (if "match_trial_link_id" in config then config["match_trial_link_id"] else r.value.trialIdentifier))
    ensures r.Success? && "valid_clinical_reasons" !in config ==> r.value.validClinicalReasons == {}
    ensures r.Success? && "valid_clinical_reasons" in config ==>
      Elements(config["valid_clinical_reasons"], "valid_clinical_reasons") == Success(r.value.validClinicalReasons)
    ensures r.Success? ==>
      (r.value.trialStatusKey.None? <==> "trial_status_key" !in config || config["trial_status_key"].Null?)
  {
    if "ctml_collection_mappings" !in config then Failure(MissingKey("ctml_collection_mappings"))
    else if "projections" !in config then Failure(MissingKey("projections"))
    else match Projections(config["projections"])
      case Failure(e) => Failure(e)
      case Success(projections) =>
        var trialIdentifier := Json.Get(config, "trial_identifier", Json.Str("protocol_no"));
        match Elements(Json.Get(config, "valid_clinical_reasons", Json.Arr([])), "valid_clinical_reasons")
        case Failure(e) => Failure(e)
        case Success(reasons) =>
          match StatusKeyOf(Json.Get(config, "trial_status_key", Json.Null))
          case Failure(e) => Failure(e)
          case Success(statusKey) =>
            Success(Settings(
              ResourcePaths(dirs),
              config["ctml_collection_mappings"],
              projections,
              Json.Get(config, "trial_collection", Json.Str("trial")),
              trialIdentifier,
              Json.Get(config, "match_trial_link_id", trialIdentifier),
              reasons,
              statusKey))
  }

  /** Everything before the status key is read succeeds. */
  predicate ReachesStatusKey(config: map<string, Json.Value>) {
    && "ctml_collection_mappings" in config
    && "projections" in config
    && Projections(config["projections"]).Success?
    && Elements(Json.Get(config, "valid_clinical_reasons", Json.Arr([])), "valid_clinical_reasons").Success?
  }

  /**
   * Construction aborts for a missing accrual-value list exactly when a
   * status key is configured as a dict without a (non-null)
   * `open_to_accrual_values`, and everything read before it was fine.
   */
  lemma AbortsWithoutAccrualValues(config: map<string, Json.Value>, dirs: seq<(string, seq<string>)>)
    ensures Configure(config, dirs) == Failure(AccrualValuesMissing) <==>
      && ReachesStatusKey(config)
      && "trial_status_key" in config
      && config["trial_status_key"].Obj?
      && Json.Get(config["trial_status_key"].fields, "open_to_accrual_values", Json.Null).Null?
  {
  }

  /** A stored accrual value never needs normalising again. */
  lemma StoredAccrualValuesNormalised(config: map<string, Json.Value>, dirs: seq<(string, seq<string>)>, i: int)
    requires Configure(config, dirs).Success? && Configure(config, dirs).value.trialStatusKey.Some?
    requires 0 <= i < |Configure(config, dirs).value.trialStatusKey.value.openToAccrualValues|
    ensures var v := Configure(config, dirs).value.trialStatusKey.value.openToAccrualValues[i];
      NormaliseAccrualValue(v) == v
  {
    var sk := Json.Get(config, "trial_status_key", Json.Null);
    var given := IterItems(Json.Get(sk.fields, "open_to_accrual_values", Json.Null)).value;
    NormaliseIdempotent(given[i]);
  }

  /** The transformer object; only the attributes the constructor sets are modelled. */
  class MatchCriteriaTransform {
    var resourcePaths: map<string, string>
    var ctmlCollectionMappings: Json.Value
    var projections: map<string, map<Json.Value, int>>
    var trialCollection: Json.Value
    var trialIdentifier: Json.Value
    var matchTrialLinkId: Json.Value
    var validClinicalReasons: set<Json.Value>
    var useCustomTrialStatusKey: Json.Value
    var customStatusKeyName: Json.Value
    var customOpenToAccrualVals: seq<Json.Value>

    /** The attributes as a value. */
    function Attributes(): Settings
      reads this
    {
      Settings(
        resourcePaths, ctmlCollectionMappings, projections, trialCollection, trialIdentifier,
        matchTrialLinkId, validClinicalReasons,
        if useCustomTrialStatusKey.Null? then None
        else Some(StatusKey(customStatusKeyName, customOpenToAccrualVals)))
    }

    /** The object before the constructor body assigns anything. */
    constructor Blank()
      ensures resourcePaths == map[] && customOpenToAccrualVals == [] && useCustomTrialStatusKey.Null?
    {
      resourcePaths := map[];
      ctmlCollectionMappings := Json.Null;
      projections := map[];
      trialCollection := Json.Null;
      trialIdentifier := Json.Null;
      matchTrialLinkId := Json.Null;
      validClinicalReasons := {};
      useCustomTrialStatusKey := Json.Null;
      customStatusKeyName := Json.Null;
      customOpenToAccrualVals := [];
    }

    /** The inner loop: file every listed file of one directory under its basename. */
    method AddResourceFiles(dir: string, files: seq<string>)
      modifies this`resourcePaths
      ensures resourcePaths == old(resourcePaths) + Assign(DirEntries(dir, files))
    {
      var j := 0;
      while j < |files|
        invariant 0 <= j <= |files|
        invariant resourcePaths == old(resourcePaths) + Assign(DirEntries(dir, files[..j]))
      {
        var e := EntryOf(dir, files[j]);
        DirEntriesSnoc(dir, files, j);
        AssignSnoc(old(resourcePaths), DirEntries(dir, files[..j]), e);
        resourcePaths := resourcePaths[e.name := e.path];
        j := j + 1;
      }
      assert files[..j] == files;
    }

    /** The outer loop: file the listing of each resource directory in turn. */
    method AddResourceDirs(dirs: seq<(string, seq<string>)>)
      requires resourcePaths == map[]
      modifies this`resourcePaths
      ensures resourcePaths == ResourcePaths(dirs)
    {
      var i := 0;
      while i < |dirs|
        invariant 0 <= i <= |dirs|
        invariant resourcePaths == ResourcePaths(dirs[..i])
      {
        LaterDirectoryOverrides(dirs[..i], dirs[i].0, dirs[i].1);
        assert dirs[..i + 1] == dirs[..i] + [(dirs[i].0, dirs[i].1)];
        AddResourceFiles(dirs[i].0, dirs[i].1);
        i := i + 1;
      }
      assert dirs[..i] == dirs;
    }

    /** The accrual loop: append each value, strings lowered and stripped. */
    method AppendAccrualValues(vals: seq<Json.Value>)
      modifies this`customOpenToAccrualVals
      ensures customOpenToAccrualVals == old(customOpenToAccrualVals) + NormaliseAccrualValues(vals)
    {
      var i := 0;
      while i < |vals|
        invariant 0 <= i <= |vals|
        invariant customOpenToAccrualVals == old(customOpenToAccrualVals) + NormaliseAccrualValues(vals[..i])
      {
        var v := vals[i];
        var stored: Json.Value;
        if v.Str? {
          stored := Json.Str(Text.Strip(Text.Lower(v.s)));
        } else {
          stored := v;
        }
        AppendStep(old(customOpenToAccrualVals), vals, i, stored);
        customOpenToAccrualVals := customOpenToAccrualVals + [stored];
        i := i + 1;
      }
      assert vals[..i] == vals;
    }

    /** `MatchCriteriaTransform(config, resource_dirs)`: the object, or why construction stops. */
    static method Create(config: map<string, Json.Value>, dirs: seq<(string, seq<string>)>)
      returns (r: Result<MatchCriteriaTransform, ConfigError>)
      ensures r.Success? ==> fresh(r.value) && Configure(config, dirs) == Success(r.value.Attributes())
      ensures r.Failure? ==> Configure(config, dirs) == Failure(r.error)
    {
      var t := new MatchCriteriaTransform.Blank();
      t.AddResourceDirs(dirs);

      if "ctml_collection_mappings" !in config {
        return Failure(MissingKey("ctml_collection_mappings"));
      }
      t.ctmlCollectionMappings := config["ctml_collection_mappings"];
      if "projections" !in config {
        return Failure(MissingKey("projections"));
      }
      var projections := Projections(config["projections"]);
      if projections.Failure? {
        return Failure(projections.error);
      }
      t.projections := projections.value;
      t.trialCollection := Json.Get(config, "trial_collection", Json.Str("trial"));
      t.trialIdentifier := Json.Get(config, "trial_identifier", Json.Str("protocol_no"));
      t.matchTrialLinkId := Json.Get(config, "match_trial_link_id", t.trialIdentifier);
      var reasons := Elements(Json.Get(config, "valid_clinical_reasons", Json.Arr([])), "valid_clinical_reasons");
      if reasons.Failure? {
        return Failure(reasons.error);
      }
      t.validClinicalReasons := reasons.value;

      var statusKey := Json.Get(config, "trial_status_key", Json.Null);
      t.useCustomTrialStatusKey := statusKey;
      if !statusKey.Null? {
        if !statusKey.Obj? {
          return Failure(WrongType("trial_status_key"));
        }
        t.customStatusKeyName := Json.Get(statusKey.fields, "key_name", Json.Null);
        t.customOpenToAccrualVals := [];
        var accrual := Json.Get(statusKey.fields, "open_to_accrual_values", Json.Null);
        if accrual.Null? {
          return Failure(AccrualValuesMissing);
        }
        var items := IterItems(accrual);
        if items.Failure? {
          return Failure(items.error);
        }
        t.AppendAccrualValues(items.value);
        assert t.customOpenToAccrualVals == NormaliseAccrualValues(items.value);
        assert StatusKeyOf(statusKey) == Success(Some(StatusKey(t.customStatusKeyName, t.customOpenToAccrualVals)));
      }
      assert Configure(config, dirs).Success?;
      assert Configure(config, dirs).value.trialStatusKey == t.Attributes().trialStatusKey;
      return Success(t);
    }
  }
}
