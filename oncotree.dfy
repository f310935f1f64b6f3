/**
 * The offline oncotree subtype-mapping builder (matchengine/scratch.py).
 *
 * Each row of the oncotree table names a path of up to seven levels of
 * tumour types.  The builder maps every label to itself and every deeper
 * label of the same row, drops the empty label, and adds two synthetic
 * groups: `_LIQUID_` (the subtypes of Lymph and Blood) and `_SOLID_`
 * (every other key).  Reading the file and writing the JSON are left out:
 * the rows come in as a sequence, the mapping goes out as a value.
 */
module Oncotree {
  import opened Wrappers
  import Text

  const LevelCount: nat := 7

  const LiquidKey := "_LIQUID_"
  const SolidKey := "_SOLID_"
  const LymphKey := "Lymph"
  const BloodKey := "Blood"

  /** The raw text of the columns level_1 … level_7 of one row of the table. */
  type Row = r: seq<string> | |r| == LevelCount witness ["", "", "", "", "", "", ""]

  /** The `defaultdict(set)` being built: a label and the labels at or below it. */
  type Mapping = map<string, set<string>>

  /** `raw.split('(')[0].strip()`: the label without its parenthesised code. */
  function Label(raw: string): (l: string)
    ensures '(' !in l
    ensures l != [] ==> !Text.IsSpace(l[0]) && !Text.IsSpace(l[|l| - 1])
  {
    var name := Text.BeforeFirst(raw, '(');
    var l := Text.Strip(name);
    NotInSlice(name, Text.LeadingSpaces(name), Text.LeadingSpaces(name) + |l|, '(');
    l
  }

  lemma NotInSlice(s: string, a: nat, b: nat, c: char)
    requires a <= b <= |s| && c !in s
    ensures c !in s[a..b]
  {
  }

  /** The seven labels of a row, in level order. */
  function Labels(row: Row): (ls: seq<string>)
    ensures |ls| == LevelCount
    ensures forall i :: 0 <= i < LevelCount ==> ls[i] == Label(row[i])
  {
    seq(LevelCount, i requires 0 <= i < LevelCount => Label(row[i]))
  }

  /** The labels of `ls` from level `i` down: the set display `{level_i, …, level_7}`. */
  function Deeper(ls: seq<string>, i: nat): set<string>
    requires i <= |ls|
  {
    set j | i <= j < |ls| :: ls[j]
  }

  /** The value a `defaultdict(set)` gives for `k`: the stored set, or an empty one. */
  function Lookup(m: Mapping, k: string): set<string> {
    if k in m then m[k] else {}
  }

  /** `mapping[k].update(add)` on a `defaultdict(set)`. */
  function Update(m: Mapping, k: string, add: set<string>): Mapping {
    m[k := Lookup(m, k) + add]
  }

  /** The first `n` update lines for one row's labels `ls`, applied to `m`. */
  function AddLevels(m: Mapping, ls: seq<string>, n: nat): Mapping
    requires n <= |ls|
  {
    if n == 0 then m else Update(AddLevels(m, ls, n - 1), ls[n - 1], Deeper(ls, n - 1))
  }

  /** The labels of every row. */
  function LabelRows(rows: seq<Row>): (ls: seq<seq<string>>)
    ensures |ls| == |rows|
    ensures forall r :: 0 <= r < |rows| ==> ls[r] == Labels(rows[r])
  {
    seq(|rows|, r requires 0 <= r < |rows| => Labels(rows[r]))
  }

  /** The mapping after the loop over rows with labels `ls`, starting from an empty defaultdict. */
  function Closure(ls: seq<seq<string>>): Mapping {
    if ls == [] then map[] else AddLevels(Closure(ls[..|ls| - 1]), ls[|ls| - 1], |ls[|ls| - 1]|)
  }

  /** Some row has label `k` at some level. */
  ghost predicate Labelled(ls: seq<seq<string>>, k: string) {
    exists r, i :: 0 <= r < |ls| && 0 <= i < |ls[r]| && ls[r][i] == k
  }

  /** Some row has label `k` at a level and label `x` at the same or a deeper level. */
  ghost predicate Below(ls: seq<seq<string>>, k: string, x: string) {
    exists r, i, j :: 0 <= r < |ls| && 0 <= i <= j < |ls[r]| && ls[r][i] == k && ls[r][j] == x
  }

  /** The keys one row adds are exactly its labels. */
  lemma {:induction false} AddLevelsKey(m: Mapping, ls: seq<string>, n: nat, k: string)
    requires n <= |ls|
    ensures k in AddLevels(m, ls, n) <==> k in m || exists i :: 0 <= i < n && ls[i] == k
  {
    if n > 0 {
      AddLevelsKey(m, ls, n - 1, k);
    }
  }

  /** One row adds to the set of `k` exactly the labels at or below an occurrence of `k`. */
  lemma {:induction false} AddLevelsMember(m: Mapping, ls: seq<string>, n: nat, k: string, x: string)
    requires n <= |ls|
    ensures (k in AddLevels(m, ls, n) && x in AddLevels(m, ls, n)[k])
            <==> (k in m && x in m[k]) || exists i, j :: 0 <= i < n && i <= j < |ls| && ls[i] == k && ls[j] == x
  {
    if n > 0 {
      AddLevelsMember(m, ls, n - 1, k, x);
      AddLevelsKey(m, ls, n - 1, k);
    }
  }

  /** The keys of the closure are exactly the labels that occur in some row. */
  lemma {:induction false} ClosureKeys(ls: seq<seq<string>>, k: string)
    ensures k in Closure(ls) <==> Labelled(ls, k)
  {
    if ls != [] {
      var init, last := ls[..|ls| - 1], ls[|ls| - 1];
      ClosureKeys(init, k);
      AddLevelsKey(Closure(init), last, |last|, k);
      if Labelled(ls, k) {
        var r, i :| 0 <= r < |ls| && 0 <= i < |ls[r]| && ls[r][i] == k;
        if r < |ls| - 1 {
          assert init[r] == ls[r];
        }
      }
      if Labelled(init, k) {
        var r, i :| 0 <= r < |init| && 0 <= i < |init[r]| && init[r][i] == k;
        assert ls[r] == init[r];
      }
    }
  }

  /** `x` is in the set of `k` exactly when some row has `x` at or below `k`. */
  lemma {:induction false} ClosureMember(ls: seq<seq<string>>, k: string, x: string)
    ensures (k in Closure(ls) && x in Closure(ls)[k]) <==> Below(ls, k, x)
  {
    if ls != [] {
      var init, last := ls[..|ls| - 1], ls[|ls| - 1];
      ClosureMember(init, k, x);
      AddLevelsMember(Closure(init), last, |last|, k, x);
      if Below(ls, k, x) {
        var r, i, j :| 0 <= r < |ls| && 0 <= i <= j < |ls[r]| && ls[r][i] == k && ls[r][j] == x;
        if r < |ls| - 1 {
          assert init[r] == ls[r];
        }
      }
      if Below(init, k, x) {
        var r, i, j :| 0 <= r < |init| && 0 <= i <= j < |init[r]| && init[r][i] == k && init[r][j] == x;
        assert ls[r] == init[r];
      }
    }
  }

  /** For every row and level i, the set of level i holds level i and every deeper label of the row. */
  lemma RowIsClosed(ls: seq<seq<string>>, r: nat, i: nat, j: nat)
    requires r < |ls| && i <= j < |ls[r]|
    ensures ls[r][i] in Closure(ls)
    ensures ls[r][j] in Closure(ls)[ls[r][i]]
  {
    ClosureMember(ls, ls[r][i], ls[r][j]);
  }

  /** Processing further rows only adds keys and set elements. */
  lemma ClosureGrows(ls: seq<seq<string>>, more: seq<seq<string>>, k: string, x: string)
    requires k in Closure(ls) && x in Closure(ls)[k]
    ensures k in Closure(ls + more) && x in Closure(ls + more)[k]
  {
    ClosureMember(ls, k, x);
    var r, i, j :| 0 <= r < |ls| && 0 <= i <= j < |ls[r]| && ls[r][i] == k && ls[r][j] == x;
    assert (ls + more)[r] == ls[r];
    ClosureMember(ls + more, k, x);
  }

  lemma ClosureOfPrefix(rows: seq<Row>, r: nat)
    requires r < |rows|
    ensures Closure(LabelRows(rows[..r + 1])) == AddLevels(Closure(LabelRows(rows[..r])), Labels(rows[r]), LevelCount)
  {
    var whole, init := LabelRows(rows[..r + 1]), LabelRows(rows[..r]);
    assert whole[..r] == init by {
      forall i | 0 <= i < r
        ensures whole[i] == init[i]
      {
        assert rows[..r + 1][i] == rows[..r][i];
      }
    }
    assert whole[r] == Labels(rows[r]) by {
      assert rows[..r + 1][r] == rows[r];
    }
  }

  /** The row loop (lines 14-28), updating the defaultdict in place row by row. */
  method AddRows(rows: seq<Row>) returns (m: Mapping)
    ensures m == Closure(LabelRows(rows))
  {
    m := map[];
    var r := 0;
    while r < |rows|
      invariant r <= |rows|
      invariant m == Closure(LabelRows(rows[..r]))
    {
      var ls := Labels(rows[r]);
      ghost var before := m;
      var i := 0;
      while i < LevelCount
        invariant i <= LevelCount
        invariant m == AddLevels(before, ls, i)
      {
        m := Update(m, ls[i], Deeper(ls, i));
        i := i + 1;
      }
      ClosureOfPrefix(rows, r);
      r := r + 1;
    }
    assert rows[..r] == rows;
  }

  /** Lines 30-33: `del mapping['']`, then remove `''` from every set; the `del` fails when there is no `''` key. */
  function Cleanup(m: Mapping): (r: Result<Mapping, string>)
    ensures r.Failure? <==> "" !in m
    ensures r.Success? ==> "" !in r.value && forall k :: k in r.value ==> "" !in r.value[k]
    ensures r.Success? ==> forall k :: k in m && k != "" ==> k in r.value && r.value[k] + {""} == m[k] + {""}
    ensures r.Success? ==> forall k :: k in r.value ==> k in m
  {
    if "" !in m then Failure("KeyError: ''")
    else Success(map k | k in m && k != "" :: m[k] - {""})
  }

  /** The `del` of line 30 fails exactly when no row has an empty label. */
  lemma CleanupFailsWithoutEmptyLabel(rows: seq<Row>)
    ensures Cleanup(Closure(LabelRows(rows))).Failure? <==> !Labelled(LabelRows(rows), "")
  {
    ClosureKeys(LabelRows(rows), "");
  }

  /** Lines 30-33 on the dict in place. */
  method RemoveEmptyLabel(m0: Mapping) returns (r: Result<Mapping, string>)
    ensures r == Cleanup(m0)
  {
    if "" !in m0 {
      return Failure("KeyError: ''");
    }
    var m := m0 - {""};
    var todo := m.Keys;
    while todo != {}
      invariant todo <= m.Keys && m.Keys == m0.Keys - {""}
      invariant forall k :: k in m ==> m[k] == if k in todo then m0[k] else m0[k] - {""}
      decreases todo
    {
      var k :| k in todo;
      if "" in m[k] {
        m := m[k := m[k] - {""}];
      }
      todo := todo - {k};
    }
    assert m == map k | k in m0 && k != "" :: m0[k] - {""};
    return Success(m);
  }

  /** Line 34: reading Lymph and Blood on the defaultdict creates them empty when absent. */
  function WithLiquid(m: Mapping): (r: Mapping)
    ensures r.Keys == m.Keys + {LymphKey, BloodKey, LiquidKey}
    ensures r[LiquidKey] == Lookup(m, LymphKey) + Lookup(m, BloodKey)
    ensures r[LymphKey] == Lookup(m, LymphKey) && r[BloodKey] == Lookup(m, BloodKey)
    ensures forall k :: k in m && k != LiquidKey ==> r[k] == m[k]
  {
    var withBoth := m[LymphKey := Lookup(m, LymphKey)][BloodKey := Lookup(m, BloodKey)];
    withBoth[LiquidKey := withBoth[LymphKey] + withBoth[BloodKey]]
  }

  /** Lines 35-37: the keys present before the loop that are not liquid subtypes. */
  function SolidAdditions(m: Mapping): set<string>
    requires LiquidKey in m
  {
    set k | k in m && k !in m[LiquidKey]
  }

  /** Lines 35-37: `_SOLID_` is created (by the first `add`) only when something is added. */
  function WithSolid(m: Mapping): Mapping
    requires LiquidKey in m
  {
    var adds := SolidAdditions(m);
    if adds == {} then m else m[SolidKey := Lookup(m, SolidKey) + adds]
  }

  /** Lines 34-37. */
  function DeriveGroups(m: Mapping): Mapping {
    WithSolid(WithLiquid(m))
  }

  /**
   * `_LIQUID_` is the union of Lymph and Blood (each empty when absent);
   * `_SOLID_` receives every key present before its loop that is not a liquid
   * subtype, the `_LIQUID_` key itself included, and receives no liquid subtype.
   */
  lemma GroupsSpec(m: Mapping, k: string)
    ensures DeriveGroups(m)[LiquidKey] == Lookup(m, LymphKey) + Lookup(m, BloodKey)
    ensures k in WithLiquid(m) && k !in WithLiquid(m)[LiquidKey]
            ==> SolidKey in DeriveGroups(m) && k in DeriveGroups(m)[SolidKey]
    ensures SolidKey in DeriveGroups(m) && k in DeriveGroups(m)[SolidKey] && k in DeriveGroups(m)[LiquidKey]
            ==> k in Lookup(m, SolidKey)
    ensures SolidKey in DeriveGroups(m) && k in DeriveGroups(m)[SolidKey]
            ==> k in Lookup(m, SolidKey) || (k in WithLiquid(m) && k !in WithLiquid(m)[LiquidKey])
    ensures LiquidKey !in Lookup(m, LymphKey) + Lookup(m, BloodKey)
            ==> SolidKey in DeriveGroups(m) && LiquidKey in DeriveGroups(m)[SolidKey]
    ensures forall j :: j in m && j != SolidKey && j != LiquidKey ==> DeriveGroups(m)[j] == m[j]
  {
    var w := WithLiquid(m);
    if k in w && k !in w[LiquidKey] {
      assert k in SolidAdditions(w);
    }
    if LiquidKey !in w[LiquidKey] {
      assert LiquidKey in SolidAdditions(w);
    }
  }

  /** `_SOLID_` after `add`ing each of `added` to it. */
  function GrowSolid(m: Mapping, added: set<string>): Mapping {
    if added == {} then m else m[SolidKey := Lookup(m, SolidKey) + added]
  }

  lemma GrowSolidStep(m: Mapping, added: set<string>, k: string)
    ensures GrowSolid(m, added)[SolidKey := Lookup(GrowSolid(m, added), SolidKey) + {k}] == GrowSolid(m, added + {k})
  {
    var before := GrowSolid(m, added);
    var after := before[SolidKey := Lookup(before, SolidKey) + {k}];
    assert Lookup(before, SolidKey) == Lookup(m, SolidKey) + added;
    assert after.Keys == GrowSolid(m, added + {k}).Keys;
    assert after[SolidKey] == Lookup(m, SolidKey) + (added + {k});
  }

  /** Lines 34-37 on the dict in place, `_SOLID_` grown by `add` over a snapshot of the keys. */
  method AddGroups(m0: Mapping) returns (m: Mapping)
    ensures m == DeriveGroups(m0)
  {
    assert SolidKey[1] != LiquidKey[1];
    m := m0;
    var lymph := Lookup(m, LymphKey);
    m := m[LymphKey := lymph];
    var blood := Lookup(m, BloodKey);
    m := m[BloodKey := blood];
    m := m[LiquidKey := lymph + blood];
    ghost var w := m;
    assert w == WithLiquid(m0);
    var snapshot := m.Keys;
    var todo := snapshot;
    ghost var added: set<string> := {};
    while todo != {}
      invariant todo <= snapshot && SolidKey != LiquidKey
      invariant added == set k | k in snapshot - todo && k !in w[LiquidKey]
      invariant m == GrowSolid(w, added)
      decreases todo
    {
      var k :| k in todo;
      assert snapshot - (todo - {k}) == (snapshot - todo) + {k};
      assert m[LiquidKey] == w[LiquidKey];
      ghost var done' := (snapshot - todo) + {k};
      if k !in m[LiquidKey] {
        GrowSolidStep(w, added, k);
        m := m[SolidKey := Lookup(m, SolidKey) + {k}];
        added := added + {k};
      }
      assert added == set j | j in done' && j !in w[LiquidKey];
      todo := todo - {k};
    }
    assert added == SolidAdditions(w);
  }

  /** The distinct elements of a sequence (the Python list has no repeats). */
  ghost predicate Distinct(q: seq<string>) {
    forall i, j :: 0 <= i < j < |q| ==> q[i] != q[j]
  }

  /** `list(s)`: the elements of `s` in some order, each once. */
  method SetToList(s: set<string>) returns (q: seq<string>)
    ensures forall x :: x in q <==> x in s
    ensures Distinct(q)
  {
    q := [];
    var rest := s;
    while rest != {}
      invariant rest <= s
      invariant forall x :: x in q <==> x in s - rest
      invariant Distinct(q)
      decreases rest
    {
      var x :| x in rest;
      assert x !in q;
      ghost var q0 := q;
      q := q + [x];
      assert forall i :: 0 <= i < |q0| ==> q[i] == q0[i] && q[i] != x;
      rest := rest - {x};
    }
  }

  /** Lines 39-40: every set becomes a list with the same elements. */
  method ToLists(m: Mapping) returns (r: map<string, seq<string>>)
    ensures r.Keys == m.Keys
    ensures forall k :: k in r ==> Distinct(r[k]) && forall x :: x in r[k] <==> x in m[k]
  {
    r := map[];
    var todo := m.Keys;
    while todo != {}
      invariant todo <= m.Keys && r.Keys == m.Keys - todo
      invariant forall k :: k in r ==> Distinct(r[k]) && forall x :: x in r[k] <==> x in m[k]
      decreases todo
    {
      var k :| k in todo;
      var l := SetToList(m[k]);
      r := r[k := l];
      todo := todo - {k};
    }
  }

  /** The mapping the script writes out, before its sets become lists. */
  function SubtypeMapping(rows: seq<Row>): Result<Mapping, string> {
    match Cleanup(Closure(LabelRows(rows)))
    case Failure(e) => Failure(e)
    case Success(m) => Success(DeriveGroups(m))
  }

  /** The empty label is gone from the finished mapping: neither a key nor an element. */
  lemma NoEmptyLabelInResult(m: Mapping)
    requires Cleanup(m).Success?
    ensures "" !in DeriveGroups(Cleanup(m).value)
    ensures forall k :: k in DeriveGroups(Cleanup(m).value) ==> "" !in DeriveGroups(Cleanup(m).value)[k]
  {
    var c := Cleanup(m).value;
    var w := WithLiquid(c);
    assert "" != LymphKey && "" != BloodKey && "" != LiquidKey && "" != SolidKey;
    assert "" !in w[LiquidKey];
    assert "" !in SolidAdditions(w);
    assert "" !in Lookup(w, SolidKey);
  }

  /** The whole script, rows to lists. */
  method BuildSubtypeMapping(rows: seq<Row>) returns (r: Result<map<string, seq<string>>, string>)
    ensures r.Failure? <==> SubtypeMapping(rows).Failure?
    ensures r.Success? ==> r.value.Keys == SubtypeMapping(rows).value.Keys
    ensures r.Success? ==> forall k :: k in r.value ==>
              Distinct(r.value[k]) && forall x :: x in r.value[k] <==> x in SubtypeMapping(rows).value[k]
  {
    var closure := AddRows(rows);
    var cleaned := RemoveEmptyLabel(closure);
    if cleaned.Failure? {
      return Failure(cleaned.error);
    }
    var grouped := AddGroups(cleaned.value);
    var lists := ToLists(grouped);
    return Success(lists);
  }
}
