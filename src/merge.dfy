/**
 * merge_analyses and its _merge_* helpers (app/ai_analysis/utils.py): how a
 * chunk's analysis is folded into the analysis built so far.
 */
module Merge {
  import opened Wrappers
  import opened PyValue
  import opened Errors
  import PyMath

  /** One entry of key_points: the point text is what de-duplication compares. */
  datatype KeyPoint = KeyPoint(point: string, impactType: string)

  /** The plain list fields: three impact lists, three action lists. */
  datatype ListField =
    EnvironmentalImpacts | EducationImpacts | InfrastructureImpacts
    | RecommendedActions | ImmediateActions | ResourceNeeds

  /** The structured impact fields: category name to list of items. */
  datatype DictField = PublicHealthImpacts | LocalGovernmentImpacts | EconomicImpacts

  /** The fields merge_analyses reads; an absent key of the dict is None / a missing map key. */
  datatype Analysis = Analysis(
    summary: Option<string>,
    keyPoints: Option<seq<KeyPoint>>,
    lists: map<ListField, seq<string>>,
    dicts: map<DictField, seq<(string, seq<string>)>>,
    impactSummary: Option<seq<(string, Value)>>)

  // ---------------------------------------------------------------------
  // _merge_summary
  // ---------------------------------------------------------------------

  const SummaryCap := 2000

  /**
   * _merge_summary: the new summary is appended after a space; a result
   * over 2000 characters keeps its first 1997 and ends in "...".
   */
  function MergeSummary(base: Option<string>, other: Option<string>): (r: Option<string>)
    ensures other.None? ==> r == base
    ensures other.Some? ==> r.Some? && |r.value| <= SummaryCap
    ensures other.Some? && |base.GetOr("") + " " + other.value| <= SummaryCap ==>
              r == Some(base.GetOr("") + " " + other.value)
    ensures other.Some? && |base.GetOr("") + " " + other.value| > SummaryCap ==>
              r.Some? && |r.value| == SummaryCap && r.value[..1997] == (base.GetOr("") + " " + other.value)[..1997] && r.value[1997..] == "..."
  {
    if other.None? then base
    else
      var joined := base.GetOr("") + " " + other.value;
      if |joined| > SummaryCap then Some(joined[..1997] + "...") else Some(joined)
  }

  // ---------------------------------------------------------------------
  // Appending unseen entries up to a cap (_merge_key_points, _merge_structured_impacts)
  // ---------------------------------------------------------------------

  /**
   * Append the entries of xs whose key is not in `seen` (the keys of the
   * list before the merge), stopping right after an append that brings the
   * list to `cap` entries. `seen` is not updated, so two equal new entries
   * are both appended.
   */
  function AppendFresh<T>(acc: seq<T>, seen: set<string>, key: T -> string, xs: seq<T>, cap: nat): seq<T>
    decreases |xs|
  {
    if xs == [] then acc
    else if key(xs[0]) in seen then AppendFresh(acc, seen, key, xs[1..], cap)
    else if |acc + [xs[0]]| >= cap then acc + [xs[0]]
    else AppendFresh(acc + [xs[0]], seen, key, xs[1..], cap)
  }

  /** The entries of xs whose key is not in `seen`, in order. */
  function Fresh<T>(seen: set<string>, key: T -> string, xs: seq<T>): (r: seq<T>)
    ensures |r| <= |xs|
  {
    if xs == [] then []
    else if key(xs[0]) in seen then Fresh(seen, key, xs[1..])
    else [xs[0]] + Fresh(seen, key, xs[1..])
  }

  /** The list is only extended, and only by entries of xs whose key was unseen. */
  lemma {:induction false} AppendFreshExtends<T>(acc: seq<T>, seen: set<string>, key: T -> string, xs: seq<T>, cap: nat)
    ensures acc <= AppendFresh(acc, seen, key, xs, cap)
    ensures forall k :: |acc| <= k < |AppendFresh(acc, seen, key, xs, cap)| ==>
              AppendFresh(acc, seen, key, xs, cap)[k] in xs && key(AppendFresh(acc, seen, key, xs, cap)[k]) !in seen
    decreases |xs|
  {
    if xs != [] {
      var r := AppendFresh(acc, seen, key, xs, cap);
      if key(xs[0]) in seen {
        AppendFreshExtends(acc, seen, key, xs[1..], cap);
      } else if |acc + [xs[0]]| < cap {
        AppendFreshExtends(acc + [xs[0]], seen, key, xs[1..], cap);
        assert forall k :: |acc| <= k < |r| ==> r[k] in xs by {
          forall k | |acc| <= k < |r| ensures r[k] in xs {
            if k > |acc| { assert r[k] in xs[1..]; }
          }
        }
      }
    }
  }

  /** The cap: a list below it never grows past it; a list at or above it gains at most one entry. */
  lemma {:induction false} AppendFreshBound<T>(acc: seq<T>, seen: set<string>, key: T -> string, xs: seq<T>, cap: nat)
    ensures |acc| < cap ==> |AppendFresh(acc, seen, key, xs, cap)| <= cap
    ensures |acc| >= cap ==> |AppendFresh(acc, seen, key, xs, cap)| <= |acc| + 1
    decreases |xs|
  {
    if xs != [] {
      if key(xs[0]) in seen {
        AppendFreshBound(acc, seen, key, xs[1..], cap);
      } else if |acc + [xs[0]]| < cap {
        AppendFreshBound(acc + [xs[0]], seen, key, xs[1..], cap);
      }
    }
  }

  /** Below the cap nothing is cut: every unseen entry is appended, in order. */
  lemma {:induction false} AppendFreshComplete<T>(acc: seq<T>, seen: set<string>, key: T -> string, xs: seq<T>, cap: nat)
    requires |acc| + |Fresh(seen, key, xs)| < cap
    ensures AppendFresh(acc, seen, key, xs, cap) == acc + Fresh(seen, key, xs)
    decreases |xs|
  {
    if xs != [] {
      if key(xs[0]) in seen {
        AppendFreshComplete(acc, seen, key, xs[1..], cap);
      } else {
        AppendFreshComplete(acc + [xs[0]], seen, key, xs[1..], cap);
        assert acc + [xs[0]] + Fresh(seen, key, xs[1..]) == acc + ([xs[0]] + Fresh(seen, key, xs[1..]));
      }
    }
  }

  /** The append loop with its break. */
  method AppendFreshLoop<T>(acc: seq<T>, seen: set<string>, key: T -> string, xs: seq<T>, cap: nat) returns (r: seq<T>)
    ensures r == AppendFresh(acc, seen, key, xs, cap)
  {
    r := acc;
    var i := 0;
    while i < |xs|
      invariant 0 <= i <= |xs|
      invariant AppendFresh(r, seen, key, xs[i..], cap) == AppendFresh(acc, seen, key, xs, cap)
    {
      assert xs[i..][1..] == xs[i + 1..];
      if key(xs[i]) !in seen {
        r := r + [xs[i]];
        if |r| >= cap {
          return;
        }
      }
      i := i + 1;
    }
  }

  /** The point texts of a list of key points. */
  function PointSet(ps: seq<KeyPoint>): (s: set<string>)
    ensures forall p :: p in ps ==> p.point in s
  {
    set p | p in ps :: p.point
  }

  function PointOf(p: KeyPoint): string { p.point }

  /**
   * _merge_key_points: when both analyses have key points, append the new
   * points whose text the base lacks, stopping once there are 15.
   */
  method MergeKeyPoints(base: Option<seq<KeyPoint>>, other: Option<seq<KeyPoint>>) returns (r: Option<seq<KeyPoint>>)
    ensures base.None? || other.None? ==> r == base
    ensures base.Some? && other.Some? ==>
              r == Some(AppendFresh(base.value, PointSet(base.value), PointOf, other.value, 15))
  {
    if base.None? || other.None? {
      return base;
    }
    var merged := AppendFreshLoop(base.value, PointSet(base.value), PointOf, other.value, 15);
    r := Some(merged);
  }

  /** What the key-point merge promises: base kept as a prefix, no new point repeating a base point, and the cap. */
  lemma {:induction false} KeyPointsMerged(base: seq<KeyPoint>, other: seq<KeyPoint>)
    ensures var r := AppendFresh(base, PointSet(base), PointOf, other, 15);
      && base <= r
      && (forall k :: |base| <= k < |r| ==> r[k] in other && forall q :: q in base ==> r[k].point != q.point)
      && (|base| < 15 ==> |r| <= 15)
      && (|base| >= 15 ==> |r| <= |base| + 1)
  {
    AppendFreshExtends(base, PointSet(base), PointOf, other, 15);
    AppendFreshBound(base, PointSet(base), PointOf, other, 15);
  }

  // ---------------------------------------------------------------------
  // Set unions with a cap (_merge_impact_lists, _merge_action_items)
  // ---------------------------------------------------------------------

  /** The number of entries a list field keeps after a merge. */
  function Limit(f: ListField): nat
  {
    match f
    case EnvironmentalImpacts => 10
    case EducationImpacts => 10
    case InfrastructureImpacts => 10
    case RecommendedActions => 8
    case ImmediateActions => 5
    case ResourceNeeds => 5
  }

  predicate NoDuplicates(xs: seq<string>)
  {
    forall i, j :: 0 <= i < j < |xs| ==> xs[i] != xs[j]
  }

  /** Add the entries of xs not yet in `all`, in order: the set the loop builds, as a list. */
  function AddAll(all: seq<string>, xs: seq<string>): (r: seq<string>)
    requires NoDuplicates(all)
    ensures NoDuplicates(r)
    ensures (set x | x in r) == (set x | x in all) + (set x | x in xs)
    decreases |xs|
  {
    if xs == [] then all
    else
      var next := if xs[0] in all then all else all + [xs[0]];
      assert (set x | x in xs) == {xs[0]} + (set x | x in xs[1..]);
      AddAll(next, xs[1..])
  }

  /**
   * The merged list: the union of both lists cut to `limit` entries. Python
   * goes through a set whose order is unspecified; the model lists the
   * union in first-occurrence order.
   */
  function CappedUnion(base: seq<string>, other: seq<string>, limit: nat): (r: seq<string>)
  {
    var all := AddAll(AddAll([], base), other);
    all[..PyMath.Min(limit, |all|)]
  }

  /** What the capped union promises whatever the set order: no duplicates, only listed entries, and exactly min(limit, |union|) of them. */
  lemma {:induction false} CappedUnionSound(base: seq<string>, other: seq<string>, limit: nat)
    ensures var r := CappedUnion(base, other, limit);
      && NoDuplicates(r)
      && (forall x :: x in r ==> x in base || x in other)
      && |r| == PyMath.Min(limit, |(set x | x in base) + (set x | x in other)|)
      && (|(set x | x in base) + (set x | x in other)| <= limit ==> forall x :: x in base || x in other ==> x in r)
  {
    var all := AddAll(AddAll([], base), other);
    var union := (set x | x in base) + (set x | x in other);
    assert (set x | x in all) == union;
    PrefixOfUnion(all, union, PyMath.Min(limit, |all|));
  }

  /** A prefix of a duplicate-free listing of `union`. */
  lemma {:induction false} PrefixOfUnion(all: seq<string>, union: set<string>, m: nat)
    requires NoDuplicates(all) && (set x | x in all) == union && m <= |all|
    ensures NoDuplicates(all[..m])
    ensures forall x :: x in all[..m] ==> x in union
    ensures |union| == |all|
    ensures m == |all| ==> forall x :: x in union ==> x in all[..m]
  {
    DistinctCard(all);
    forall x | x in all[..m] ensures x in union {
      var k :| 0 <= k < m && all[..m][k] == x;
      assert all[k] == x;
    }
    if m == |all| {
      assert all[..m] == all;
    }
  }

  /** A duplicate-free list has as many entries as its set of entries. */
  lemma {:induction false} DistinctCard(xs: seq<string>)
    requires NoDuplicates(xs)
    ensures |set x | x in xs| == |xs|
  {
    if xs != [] {
      var t := xs[1..];
      assert NoDuplicates(t);
      DistinctCard(t);
      assert (set x | x in xs) == {xs[0]} + (set x | x in t);
      assert xs[0] !in t;
    }
  }

  /** The union loop: start from the base's set, add every new entry, cut to the limit. */
  method MergeList(base: seq<string>, other: seq<string>, limit: nat) returns (r: seq<string>)
    ensures r == CappedUnion(base, other, limit)
  {
    var all := AddAll([], base);
    var i := 0;
    while i < |other|
      invariant 0 <= i <= |other|
      invariant NoDuplicates(all)
      invariant AddAll(all, other[i..]) == AddAll(AddAll([], base), other)
    {
      assert other[i..][1..] == other[i + 1..];
      if other[i] !in all {
        all := all + [other[i]];
      }
      i := i + 1;
    }
    assert other[i..] == [];
    r := all[..PyMath.Min(limit, |all|)];
  }

  /** Merge the fields of `order` one after the other, each only when both maps have it. */
  function MergeAlong<K, V>(m: map<K, V>, other: map<K, V>, order: seq<K>, merge: (K, V, V) -> V): map<K, V>
    decreases |order|
  {
    if order == [] then m
    else
      var k := order[0];
      var next := if k in m && k in other then m[k := merge(k, m[k], other[k])] else m;
      MergeAlong(next, other, order[1..], merge)
  }

  /** With each field listed once, every listed field present in both maps is merged once and nothing else changes. */
  lemma {:induction false} MergeAlongSpec<K, V>(m: map<K, V>, other: map<K, V>, order: seq<K>, merge: (K, V, V) -> V)
    requires forall i, j :: 0 <= i < j < |order| ==> order[i] != order[j]
    ensures MergeAlong(m, other, order, merge).Keys == m.Keys
    ensures forall k :: k in m ==>
              MergeAlong(m, other, order, merge)[k] == (if k in order && k in other then merge(k, m[k], other[k]) else m[k])
    decreases |order|
  {
    if order != [] {
      var k := order[0];
      var next := if k in m && k in other then m[k := merge(k, m[k], other[k])] else m;
      MergeAlongSpec(next, other, order[1..], merge);
      forall k2 | k2 in m
        ensures MergeAlong(m, other, order, merge)[k2] == (if k2 in order && k2 in other then merge(k2, m[k2], other[k2]) else m[k2])
      {
        if k2 == k {
          assert k !in order[1..];
        } else {
          assert k2 in order <==> k2 in order[1..];
        }
      }
    }
  }

  /** The order of impact_types then action_types. */
  const ListFieldOrder: seq<ListField> :=
    [EnvironmentalImpacts, EducationImpacts, InfrastructureImpacts, RecommendedActions, ImmediateActions, ResourceNeeds]

  function ListMerge(f: ListField, a: seq<string>, b: seq<string>): seq<string>
  {
    CappedUnion(a, b, Limit(f))
  }

  /** The loops over impact_types and action_types, merging each field present in both. */
  method MergeListFields(base: map<ListField, seq<string>>, other: map<ListField, seq<string>>)
    returns (r: map<ListField, seq<string>>)
    ensures r == MergeAlong(base, other, ListFieldOrder, ListMerge)
  {
    r := base;
    var i := 0;
    while i < |ListFieldOrder|
      invariant 0 <= i <= |ListFieldOrder|
      invariant MergeAlong(r, other, ListFieldOrder[i..], ListMerge) == MergeAlong(base, other, ListFieldOrder, ListMerge)
    {
      assert ListFieldOrder[i..][1..] == ListFieldOrder[i + 1..];
      var f := ListFieldOrder[i];
      if f in r && f in other {
        var l := MergeList(r[f], other[f], Limit(f));
        r := r[f := l];
      }
      i := i + 1;
    }
  }

  /** Every list field present in both analyses is the capped union; the others keep the base's value. */
  lemma {:induction false} MergeListFieldsSpec(base: map<ListField, seq<string>>, other: map<ListField, seq<string>>)
    ensures var r := MergeAlong(base, other, ListFieldOrder, ListMerge);
      && r.Keys == base.Keys
      && (forall f :: f in base && f !in other ==> r[f] == base[f])
      && (forall f :: f in base && f in other ==> r[f] == CappedUnion(base[f], other[f], Limit(f)))
  {
    ListFieldOrderComplete();
    MergeAlongSpec(base, other, ListFieldOrder, ListMerge);
  }

  /** Every list field is listed, and once. */
  lemma {:induction false} ListFieldOrderComplete()
    ensures forall f: ListField :: f in ListFieldOrder
    ensures forall i, j :: 0 <= i < j < |ListFieldOrder| ==> ListFieldOrder[i] != ListFieldOrder[j]
  {
    forall f: ListField ensures f in ListFieldOrder {
      match f
      case EnvironmentalImpacts => assert ListFieldOrder[0] == f;
      case EducationImpacts => assert ListFieldOrder[1] == f;
      case InfrastructureImpacts => assert ListFieldOrder[2] == f;
      case RecommendedActions => assert ListFieldOrder[3] == f;
      case ImmediateActions => assert ListFieldOrder[4] == f;
      case ResourceNeeds => assert ListFieldOrder[5] == f;
    }
  }

  // ---------------------------------------------------------------------
  // _merge_structured_impacts
  // ---------------------------------------------------------------------

  const ItemCap := 8

  function ItemOf(s: string): string { s }

  /** The items of `category` in a structured field, if it has that category. */
  function CategoryItems(d: seq<(string, seq<string>)>, category: string): Option<seq<string>>
  {
    if d == [] then None
    else if d[0].0 == category then Some(d[0].1)
    else CategoryItems(d[1..], category)
  }

  /** Replace the items of `category` (its first entry), keeping every other entry and the order. */
  function SetCategoryItems(d: seq<(string, seq<string>)>, category: string, items: seq<string>)
    : (r: seq<(string, seq<string>)>)
    ensures |r| == |d|
    ensures forall k :: 0 <= k < |d| ==> r[k].0 == d[k].0
  {
    if d == [] then []
    else if d[0].0 == category then [(category, items)] + d[1..]
    else [d[0]] + SetCategoryItems(d[1..], category, items)
  }

  /** One category of the new analysis merged into the base's same category, when the base has it. */
  function MergeCategory(base: seq<(string, seq<string>)>, category: string, items: seq<string>)
    : seq<(string, seq<string>)>
  {
    var prior := CategoryItems(base, category);
    if prior.None? then base
    else
      var seen := set x | x in prior.value;
      SetCategoryItems(base, category, AppendFresh(prior.value, seen, ItemOf, items, ItemCap))
  }

  /** Every category of the new analysis, in its order. */
  function MergeCategories(base: seq<(string, seq<string>)>, other: seq<(string, seq<string>)>)
    : (r: seq<(string, seq<string>)>)
    ensures |r| == |base|
    ensures forall k :: 0 <= k < |base| ==> r[k].0 == base[k].0
    decreases |other|
  {
    if other == [] then base
    else MergeCategories(MergeCategory(base, other[0].0, other[0].1), other[1..])
  }

  /** The category loop of one structured field, with the item loop inside it. */
  method MergeStructuredField(base: seq<(string, seq<string>)>, other: seq<(string, seq<string>)>)
    returns (r: seq<(string, seq<string>)>)
    ensures r == MergeCategories(base, other)
  {
    r := base;
    var i := 0;
    while i < |other|
      invariant 0 <= i <= |other|
      invariant MergeCategories(r, other[i..]) == MergeCategories(base, other)
    {
      assert other[i..][1..] == other[i + 1..];
      var (category, items) := other[i];
      var prior := CategoryItems(r, category);
      if prior.Some? {
        var seen := set x | x in prior.value;
        var extended := AppendFreshLoop(prior.value, seen, ItemOf, items, ItemCap);
        r := SetCategoryItems(r, category, extended);
      }
      i := i + 1;
    }
    assert other[i..] == [];
  }

  const DictFieldOrder: seq<DictField> := [PublicHealthImpacts, LocalGovernmentImpacts, EconomicImpacts]

  function DictMerge(f: DictField, a: seq<(string, seq<string>)>, b: seq<(string, seq<string>)>): seq<(string, seq<string>)>
  {
    MergeCategories(a, b)
  }

  /** The loop over impact_dicts. */
  method MergeDictFields(base: map<DictField, seq<(string, seq<string>)>>, other: map<DictField, seq<(string, seq<string>)>>)
    returns (r: map<DictField, seq<(string, seq<string>)>>)
    ensures r == MergeAlong(base, other, DictFieldOrder, DictMerge)
  {
    r := base;
    var i := 0;
    while i < |DictFieldOrder|
      invariant 0 <= i <= |DictFieldOrder|
      invariant MergeAlong(r, other, DictFieldOrder[i..], DictMerge) == MergeAlong(base, other, DictFieldOrder, DictMerge)
    {
      assert DictFieldOrder[i..][1..] == DictFieldOrder[i + 1..];
      var f := DictFieldOrder[i];
      if f in r && f in other {
        var d := MergeStructuredField(r[f], other[f]);
        r := r[f := d];
      }
      i := i + 1;
    }
  }

  /** Every structured field present in both analyses has its categories merged; the others keep the base's value. */
  lemma {:induction false} MergeDictFieldsSpec(base: map<DictField, seq<(string, seq<string>)>>, other: map<DictField, seq<(string, seq<string>)>>)
    ensures var r := MergeAlong(base, other, DictFieldOrder, DictMerge);
      && r.Keys == base.Keys
      && (forall f :: f in base && f !in other ==> r[f] == base[f])
      && (forall f :: f in base && f in other ==> r[f] == MergeCategories(base[f], other[f]))
  {
    MergeAlongSpec(base, other, DictFieldOrder, DictMerge);
    forall f: DictField ensures f in DictFieldOrder {
      match f
      case PublicHealthImpacts => assert DictFieldOrder[0] == f;
      case LocalGovernmentImpacts => assert DictFieldOrder[1] == f;
      case EconomicImpacts => assert DictFieldOrder[2] == f;
    }
  }

  /** A category's items keep their order and only grow, and by unseen items only. */
  lemma {:induction false} MergeCategoryExtends(base: seq<(string, seq<string>)>, category: string, items: seq<string>)
    requires CategoryItems(base, category).Some?
    ensures var prior := CategoryItems(base, category).value;
            var now := CategoryItems(MergeCategory(base, category, items), category);
      && now.Some? && prior <= now.value
      && (forall k :: |prior| <= k < |now.value| ==> now.value[k] in items && now.value[k] !in prior)
      && (|prior| < ItemCap ==> |now.value| <= ItemCap)
  {
    var prior := CategoryItems(base, category).value;
    var seen := set x | x in prior;
    var ext := AppendFresh(prior, seen, ItemOf, items, ItemCap);
    AppendFreshExtends(prior, seen, ItemOf, items, ItemCap);
    AppendFreshBound(prior, seen, ItemOf, items, ItemCap);
    SetThenGet(base, category, ext);
  }

  lemma {:induction false} SetThenGet(d: seq<(string, seq<string>)>, category: string, items: seq<string>)
    requires CategoryItems(d, category).Some?
    ensures CategoryItems(SetCategoryItems(d, category, items), category) == Some(items)
  {
    if d[0].0 != category {
      SetThenGet(d[1..], category, items);
    }
  }

  // ---------------------------------------------------------------------
  // _merge_impact_summary
  // ---------------------------------------------------------------------

  /** impact_priority.get(level, 0); an unhashable level (a list or dict) raises TypeError. */
  function Severity(level: Value): (r: Result<nat, Error>)
    ensures r.Ok? ==> r.value <= 4
    ensures r.Err? <==> level.PyList? || level.PyDict?
  {
    match level
    case PyList(_) => Err(TypeError("unhashable type: 'list'"))
    case PyDict(_) => Err(TypeError("unhashable type: 'dict'"))
    case PyStr(s) =>
      Ok(if s == "low" then 1 else if s == "moderate" then 2 else if s == "high" then 3
         else if s == "critical" then 4 else 0)
    case _ => Ok(0)
  }

  /** The impact_level of an impact summary, or the KeyError of its absence. */
  function LevelOf(summary: seq<(string, Value)>): (r: Result<Value, Error>)
    ensures r.Err? <==> !HasKey(summary, "impact_level")
  {
    GetFindsKey(summary, "impact_level");
    var l := Get(summary, "impact_level");
    if l.None? then Err(KeyError("impact_level")) else Ok(l.value)
  }

  /** The severity of an impact summary: its level looked up, then ranked. */
  function SummarySeverity(summary: seq<(string, Value)>): (r: Result<nat, Error>)
  {
    var l := LevelOf(summary);
    if l.Err? then Err(l.error) else Severity(l.value)
  }

  /**
   * _merge_impact_summary: with both summaries present, the new one
   * replaces the base only when strictly more severe; the base's level is
   * looked up first.
   */
  function MergeImpactSummary(base: Option<seq<(string, Value)>>, other: Option<seq<(string, Value)>>)
    : (r: Result<Option<seq<(string, Value)>>, Error>)
    ensures base.None? || other.None? ==> r == Ok(base)
    ensures base.Some? && other.Some? && r.Ok? ==>
              SummarySeverity(base.value).Ok? && SummarySeverity(other.value).Ok?
              && (r.value == other <==> (SummarySeverity(other.value).value > SummarySeverity(base.value).value
                                         || other == base))
              && (r.value == base || r.value == other)
    ensures base.Some? && other.Some? && r.Err? ==> SummarySeverity(base.value).Err? || SummarySeverity(other.value).Err?
  {
    if base.None? || other.None? then Ok(base)
    else
      var b := SummarySeverity(base.value);
      if b.Err? then Err(b.error)
      else
        var n := SummarySeverity(other.value);
        if n.Err? then Err(n.error)
        else if n.value > b.value then Ok(other) else Ok(base)
  }

  /** The merged summary is at least as severe as either input, so the most severe one survives. */
  lemma {:induction false} MergedSummaryIsMostSevere(base: seq<(string, Value)>, other: seq<(string, Value)>)
    requires MergeImpactSummary(Some(base), Some(other)).Ok?
    ensures var m := MergeImpactSummary(Some(base), Some(other)).value;
      && m.Some? && SummarySeverity(m.value).Ok?
      && SummarySeverity(m.value).value == PyMath.Max(SummarySeverity(base).value, SummarySeverity(other).value)
  {
  }

  // ---------------------------------------------------------------------
  // merge_analyses
  // ---------------------------------------------------------------------

  /** The merge of the list-shaped and dict-shaped fields, which cannot fail. */
  function MergeFields(base: Analysis, other: Analysis): Analysis
  {
    var kp := if base.keyPoints.Some? && other.keyPoints.Some?
      then Some(AppendFresh(base.keyPoints.value, PointSet(base.keyPoints.value), PointOf, other.keyPoints.value, 15))
      else base.keyPoints;
    base.(summary := MergeSummary(base.summary, other.summary),
          keyPoints := kp,
          lists := MergeAlong(base.lists, other.lists, ListFieldOrder, ListMerge),
          dicts := MergeAlong(base.dicts, other.dicts, DictFieldOrder, DictMerge))
  }

  /**
   * merge_analyses(base, new): summary, key points, impact lists,
   * structured impacts, action items, then the impact summary, the only
   * step that can fail.
   */
  function MergeAnalyses(base: Analysis, other: Analysis): Result<Analysis, Error>
  {
    var s := MergeImpactSummary(base.impactSummary, other.impactSummary);
    if s.Err? then Err(s.error) else Ok(MergeFields(base, other).(impactSummary := s.value))
  }

  /**
   * A successful merge keeps every field the base had, bounds the summary,
   * extends the base's key points and merges every field both analyses
   * carry; it fails exactly when comparing the impact summaries fails.
   */
  lemma {:induction false} MergeAnalysesShape(base: Analysis, other: Analysis)
    ensures MergeAnalyses(base, other).Err? <==> MergeImpactSummary(base.impactSummary, other.impactSummary).Err?
    ensures var r := MergeAnalyses(base, other);
      r.Ok? ==>
        && r.value.lists.Keys == base.lists.Keys && r.value.dicts.Keys == base.dicts.Keys
        && (forall f :: f in base.lists && f in other.lists ==>
              r.value.lists[f] == CappedUnion(base.lists[f], other.lists[f], Limit(f)))
        && (forall f :: f in base.dicts && f in other.dicts ==>
              r.value.dicts[f] == MergeCategories(base.dicts[f], other.dicts[f]))
        && (other.summary.Some? ==> r.value.summary.Some? && |r.value.summary.value| <= SummaryCap)
        && (base.keyPoints.Some? ==> r.value.keyPoints.Some? && base.keyPoints.value <= r.value.keyPoints.value)
  {
    MergeListFieldsSpec(base.lists, other.lists);
    MergeDictFieldsSpec(base.dicts, other.dicts);
    if base.keyPoints.Some? && other.keyPoints.Some? {
      AppendFreshExtends(base.keyPoints.value, PointSet(base.keyPoints.value), PointOf, other.keyPoints.value, 15);
    }
  }

  /** merge_analyses step by step, each helper taking the dict the previous one returned. */
  method MergeAnalysesSteps(base: Analysis, other: Analysis) returns (r: Result<Analysis, Error>)
    ensures r == MergeAnalyses(base, other)
  {
    var merged := base.(summary := MergeSummary(base.summary, other.summary));
    var kp := MergeKeyPoints(merged.keyPoints, other.keyPoints);
    var lists := MergeListFields(merged.lists, other.lists);
    var dicts := MergeDictFields(merged.dicts, other.dicts);
    merged := merged.(keyPoints := kp, lists := lists, dicts := dicts);
    var s := MergeImpactSummary(merged.impactSummary, other.impactSummary);
    if s.Err? {
      return Err(s.error);
    }
    r := Ok(merged.(impactSummary := s.value));
  }
}
