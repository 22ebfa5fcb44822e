/**
 * The feature comparison matrix: one column per feature any shown model has,
 * each listed once and sorted by name, and one check mark per model and feature
 * it lists.
 */
module ModelFeatureMatrix {
  import opened Types
  import opened ModelPricing
  import opened ListOps
  import opened StringOrder

  /** `models.flatMap(model => model.features)`. */
  function FeatureOccurrences(models: seq<Model>): (r: seq<ModelFeature>)
    ensures forall f :: f in r <==> exists m :: m in models && f in m.features
    decreases |models|
  {
    if models == [] then []
    else
      var rest := FeatureOccurrences(models[1..]);
      assert forall m :: m in models[1..] ==> m in models;
      assert forall m :: m in models ==> m == models[0] || m in models[1..];
      models[0].features + rest
  }

  predicate Distinct<T(==)>(s: seq<T>)
  {
    forall i, j :: 0 <= i < j < |s| ==> s[i] != s[j]
  }

  /** Every element of `r` occurs in `xs` before any occurrence of a later element of `r`. */
  predicate FirstOccurrenceOrder(r: seq<ModelFeature>, xs: seq<ModelFeature>)
  {
    forall i, j, k :: 0 <= i < j < |r| && 0 <= k < |xs| && xs[k] == r[j] ==> r[i] in xs[..k]
  }

  /** `Array.from(new Set(xs))`: each element once, in order of first occurrence. */
  function Dedup(xs: seq<ModelFeature>): (r: seq<ModelFeature>)
    ensures forall f :: f in r <==> f in xs
    ensures Distinct(r)
    ensures IsSubsequence(r, xs)
    ensures FirstOccurrenceOrder(r, xs)
    decreases |xs|
  {
    if xs == [] then []
    else
      var init := xs[..|xs| - 1];
      var last := xs[|xs| - 1];
      assert xs == init + [last];
      var r := Dedup(init);
      SubsequenceOfAppend(r, init, last);
      if last in r then r else r + [last]
  }

  /** A subsequence of `a` is one of `a + [x]`, and so is it extended by `x`. */
  lemma {:induction false} SubsequenceOfAppend(r: seq<ModelFeature>, a: seq<ModelFeature>, x: ModelFeature)
    requires IsSubsequence(r, a)
    ensures IsSubsequence(r, a + [x]) && IsSubsequence(r + [x], a + [x])
    decreases |a|
  {
    if a == [] {
      assert r == [];
      assert [x][1..] == [];
    } else if r == [] {
      assert IsSubsequence(r, a + [x]);
      assert (a + [x])[1..] == a[1..] + [x];
      assert [x] == r + [x];
      SubsequenceOfAppend(r, a[1..], x);
    } else {
      assert (a + [x])[1..] == a[1..] + [x];
      assert (r + [x])[1..] == r[1..] + [x];
      if r[0] == a[0] {
        SubsequenceOfAppend(r[1..], a[1..], x);
      } else {
        SubsequenceOfAppend(r, a[1..], x);
      }
    }
  }

  /** Ordered by name in JavaScript string order (the default `sort()`). */
  predicate SortedByName(s: seq<ModelFeature>)
  {
    forall i, j :: 0 <= i < j < |s| ==> LexLe(FeatureName(s[i]), FeatureName(s[j]))
  }

  /** Puts `f` in front of the first feature whose name is not before its own. */
  function Insert(f: ModelFeature, s: seq<ModelFeature>): (r: seq<ModelFeature>)
    ensures multiset(r) == multiset(s) + multiset{f}
    decreases |s|
  {
    if s == [] || LexLe(FeatureName(f), FeatureName(s[0])) then [f] + s
    else
      assert s == [s[0]] + s[1..];
      [s[0]] + Insert(f, s[1..])
  }

  /** The inserted list starts with the new feature or with the old first one. */
  lemma InsertHead(f: ModelFeature, s: seq<ModelFeature>)
    ensures Insert(f, s)[0] == f || (s != [] && Insert(f, s)[0] == s[0])
  {
  }

  lemma {:induction false} InsertKeepsSorted(f: ModelFeature, s: seq<ModelFeature>)
    requires SortedByName(s)
    ensures SortedByName(Insert(f, s))
    decreases |s|
  {
    if s != [] && !LexLe(FeatureName(f), FeatureName(s[0])) {
      var rest := Insert(f, s[1..]);
      InsertKeepsSorted(f, s[1..]);
      InsertHead(f, s[1..]);
      LexLeTotal(FeatureName(f), FeatureName(s[0]));
      if rest[0] != f {
        assert LexLe(FeatureName(s[0]), FeatureName(s[1]));
      }
      ConsKeepsOrder(s[0], rest);
    } else if s != [] {
      ConsKeepsOrder(f, s);
    }
  }

  lemma ConsKeepsOrder(x: ModelFeature, s: seq<ModelFeature>)
    requires SortedByName(s) && s != [] && LexLe(FeatureName(x), FeatureName(s[0]))
    ensures SortedByName([x] + s)
  {
    var r := [x] + s;
    forall i, j | 0 <= i < j < |r|
      ensures LexLe(FeatureName(r[i]), FeatureName(r[j]))
    {
      if i == 0 && j > 1 {
        LexLeTransitive(FeatureName(x), FeatureName(s[0]), FeatureName(s[j - 1]));
      }
    }
  }

  /** Sorts features by name. */
  function SortByName(s: seq<ModelFeature>): (r: seq<ModelFeature>)
    ensures multiset(r) == multiset(s)
    ensures SortedByName(r)
    decreases |s|
  {
    if s == [] then []
    else
      assert s == [s[0]] + s[1..];
      InsertKeepsSorted(s[0], SortByName(s[1..]));
      Insert(s[0], SortByName(s[1..]))
  }

  /** The matrix's columns. */
  function AllFeatures(models: seq<Model>): (r: seq<ModelFeature>)
    ensures forall f :: f in r <==> exists m :: m in models && f in m.features
    ensures forall i, j :: 0 <= i < j < |r| ==> LexLt(FeatureName(r[i]), FeatureName(r[j]))
  {
    var occurrences := FeatureOccurrences(models);
    var unique := Dedup(occurrences);
    var r := SortByName(unique);
    assert forall f :: f in r <==> f in unique by {
      forall f ensures f in r <==> f in unique {
        assert f in r <==> f in multiset(r);
        assert f in unique <==> f in multiset(unique);
      }
    }
    SortedDistinctIsStrict(r, unique);
    r
  }

  lemma SortedDistinctIsStrict(r: seq<ModelFeature>, unique: seq<ModelFeature>)
    requires SortedByName(r) && Distinct(unique) && multiset(r) == multiset(unique)
    ensures forall i, j :: 0 <= i < j < |r| ==> LexLt(FeatureName(r[i]), FeatureName(r[j]))
  {
    DistinctByMultiset(r, unique);
    forall i, j | 0 <= i < j < |r|
      ensures LexLt(FeatureName(r[i]), FeatureName(r[j]))
    {
      FeatureNameInjective(r[i], r[j]);
    }
  }

  /** Distinctness is a property of the multiset: no element occurs twice. */
  lemma DistinctByMultiset(r: seq<ModelFeature>, s: seq<ModelFeature>)
    requires Distinct(s) && multiset(r) == multiset(s)
    ensures Distinct(r)
  {
    DistinctMultiplicity(s);
    forall i, j | 0 <= i < j < |r|
      ensures r[i] != r[j]
    {
      if r[i] == r[j] {
        TwiceInMultiset(r, i, j);
        assert false;
      }
    }
  }

  lemma {:induction false} DistinctMultiplicity(s: seq<ModelFeature>)
    requires Distinct(s)
    ensures forall x :: multiset(s)[x] <= 1
    decreases |s|
  {
    if s != [] {
      assert s == [s[0]] + s[1..];
      DistinctMultiplicity(s[1..]);
      assert s[0] !in s[1..];
    }
  }

  lemma {:induction false} TwiceInMultiset(r: seq<ModelFeature>, i: nat, j: nat)
    requires i < j < |r| && r[i] == r[j]
    ensures multiset(r)[r[i]] >= 2
    decreases |r|
  {
    assert r == [r[0]] + r[1..];
    if i == 0 {
      assert r[j] in r[1..];
    } else {
      TwiceInMultiset(r[1..], i - 1, j - 1);
    }
  }

  /** The check mark in a model's row under a feature's column. */
  function HasFeature(m: Model, f: ModelFeature): (mark: bool)
    ensures mark <==> exists k :: 0 <= k < |m.features| && m.features[k] == f
  {
    f in m.features
  }

  /** Every feature a shown model lists has a column, so no check mark is lost. */
  lemma EveryFeatureHasAColumn(models: seq<Model>, m: Model, f: ModelFeature)
    requires m in models && HasFeature(m, f)
    ensures f in AllFeatures(models)
  {
  }

  /** Every column has a check mark in some row. */
  lemma EveryColumnIsUsed(models: seq<Model>, f: ModelFeature)
    requires f in AllFeatures(models)
    ensures exists m :: m in models && HasFeature(m, f)
  {
  }

  /** Without models the matrix has no feature columns. */
  lemma NoModelsNoColumns()
    ensures AllFeatures([]) == []
  {
    assert forall f :: f !in AllFeatures([]);
  }
}
