/**
 * The sortable results table: one row per model of the selected providers, with
 * the engine's figures in the chosen currency, sorted by name or by total cost,
 * and a checkbox per row that toggles the model's id in the comparison selection.
 */
module ResultsTable {
  import opened Types
  import opened CostCalculator
  import opened ModelPricing
  import opened ListOps
  import opened StringOrder

  datatype SortField = Name | InputCost | OutputCost | TotalCost
  datatype SortDirection = Asc | Desc

  /** A table row: the model, its total token count and its costs in the shown currency. */
  datatype Row = Row(model: Model, totalTokens: real, costs: CostFigures)

  /** The row the table derives from one model and the form's parameters. */
  function WithCosts(params: CalculationParams, m: Model): (row: Row)
    ensures row.model == m
    ensures row.totalTokens == params.requests * TokensOf(params.inputSize, params.useTokens)
                             + params.requests * TokensOf(params.outputSize, params.useTokens)
    ensures Additive(row.costs)
    ensures params.currency == USD ==> row.costs == CalculateCosts(ForModel(params, m)).costsUSD
    ensures params.currency == INR ==> ConvertedAt(CalculateCosts(ForModel(params, m)).costsUSD, row.costs, UsdToInr)
  {
    var p := ForModel(params, m);
    var costs := CalculateCosts(p);
    Row(m, costs.tokens.totalInput + costs.tokens.totalOutput, CostsIn(p, params.currency))
  }

  /** The unsorted rows: the selected providers' models, provider by provider. */
  function ModelsWithCosts(params: CalculationParams, providers: seq<Provider>): (rows: seq<Row>)
    ensures |rows| == |ModelsOfProviders(providers)|
    ensures forall i :: 0 <= i < |rows| ==> rows[i] == WithCosts(params, ModelsOfProviders(providers)[i])
    ensures forall m :: (exists i :: 0 <= i < |rows| && rows[i].model == m) <==> m in Catalog && m.provider in providers
  {
    var ms := ModelsOfProviders(providers);
    var rows := seq(|ms|, i requires 0 <= i < |ms| => WithCosts(params, ms[i]));
    assert forall m :: (exists i :: 0 <= i < |rows| && rows[i].model == m) <==> m in ms by {
      forall m | m in ms ensures exists i :: 0 <= i < |rows| && rows[i].model == m {
        var i :| 0 <= i < |ms| && ms[i] == m;
        assert rows[i].model == m;
      }
    }
    rows
  }

  /**
   * The table's comparator as written: the sign says which row goes first. It is
   * never 0, so rows with equal keys are each told to go before (or, descending,
   * after) the other.
   */
  function Compare(f: SortField, d: SortDirection, a: Row, b: Row): (c: int)
    ensures c == 1 || c == -1
  {
    var multiplier := if d == Asc then 1 else -1;
    if f == Name then (if LexLt(b.model.name, a.model.name) then 1 else -1) * multiplier
    else (if a.costs.total > b.costs.total then 1 else -1) * multiplier
  }

  /** `a` may stand before `b`: its key is not after `b`'s in the chosen direction. */
  predicate Before(f: SortField, d: SortDirection, a: Row, b: Row)
  {
    if f == Name then
      (if d == Asc then LexLe(a.model.name, b.model.name) else LexLe(b.model.name, a.model.name))
    else
      (if d == Asc then a.costs.total <= b.costs.total else b.costs.total <= a.costs.total)
  }

  predicate Sorted(s: seq<Row>, f: SortField, d: SortDirection)
  {
    forall i, j :: 0 <= i < j < |s| ==> Before(f, d, s[i], s[j])
  }

  /**
   * The comparator and `Before` agree wherever the keys differ: a row whose key
   * strictly precedes gets a negative sign, one whose key follows a positive one.
   */
  lemma CompareAgreesWithBefore(f: SortField, d: SortDirection, a: Row, b: Row)
    ensures Before(f, d, a, b) && !Before(f, d, b, a) ==> Compare(f, d, a, b) == -1
    ensures !Before(f, d, a, b) ==> Compare(f, d, a, b) == 1
  {
    if f == Name {
      LexLeTotal(a.model.name, b.model.name);
      if LexLe(a.model.name, b.model.name) && LexLe(b.model.name, a.model.name) {
        LexLeAntisymmetric(a.model.name, b.model.name);
      }
    }
  }

  /** Equal keys make the comparator answer the same in both orders. */
  lemma TiesAreInconsistent(f: SortField, d: SortDirection, a: Row, b: Row)
    requires Before(f, d, a, b) && Before(f, d, b, a)
    ensures Compare(f, d, a, b) == Compare(f, d, b, a)
  {
    if f == Name {
      LexLeAntisymmetric(a.model.name, b.model.name);
    }
  }

  lemma BeforeTotal(f: SortField, d: SortDirection, a: Row, b: Row)
    ensures Before(f, d, a, b) || Before(f, d, b, a)
  {
    if f == Name {
      LexLeTotal(a.model.name, b.model.name);
    }
  }

  lemma BeforeTransitive(f: SortField, d: SortDirection, a: Row, b: Row, c: Row)
    requires Before(f, d, a, b) && Before(f, d, b, c)
    ensures Before(f, d, a, c)
  {
    if f == Name {
      if d == Asc {
        LexLeTransitive(a.model.name, b.model.name, c.model.name);
      } else {
        LexLeTransitive(c.model.name, b.model.name, a.model.name);
      }
    }
  }

  /**
   * Insertion of `s[j]` into the sorted prefix `s[..i+1]` is under way: every
   * pair of `s[..i+1]` not involving `j` is in order, and `s[j]` goes before
   * everything after it.
   */
  predicate Inserting(s: seq<Row>, i: nat, j: nat, f: SortField, d: SortDirection)
  {
    && j <= i < |s|
    && (forall p, q :: 0 <= p < q <= i && p != j && q != j ==> Before(f, d, s[p], s[q]))
    && (forall p, q :: 0 <= p < j < q <= i ==> Before(f, d, s[p], s[q]))
    && (forall q :: j < q <= i ==> Before(f, d, s[j], s[q]))
  }

  /** Swapping `s[j]` with a left neighbour it must precede keeps the insertion going. */
  lemma SwapKeepsInserting(s: seq<Row>, i: nat, j: nat, f: SortField, d: SortDirection)
    requires Inserting(s, i, j, f, d) && 0 < j && !Before(f, d, s[j - 1], s[j])
    ensures Inserting(s[j - 1 := s[j]][j := s[j - 1]], i, j - 1, f, d)
  {
    BeforeTotal(f, d, s[j - 1], s[j]);
  }

  /** Once `s[j]` stands after a row it may follow, `s[..i+1]` is sorted. */
  lemma InsertingDone(s: seq<Row>, i: nat, j: nat, f: SortField, d: SortDirection)
    requires Inserting(s, i, j, f, d) && (j == 0 || Before(f, d, s[j - 1], s[j]))
    ensures Sorted(s[..i + 1], f, d)
  {
    if j > 0 {
      forall p | 0 <= p < j - 1
        ensures Before(f, d, s[p], s[j])
      {
        BeforeTransitive(f, d, s[p], s[j - 1], s[j]);
      }
    }
  }

  /**
   * Sorts the rows in place by insertion, swapping each new row leftwards past
   * the rows it must precede.
   */
  method SortRows(a: array<Row>, f: SortField, d: SortDirection)
    modifies a
    ensures Sorted(a[..], f, d)
    ensures multiset(a[..]) == multiset(old(a[..]))
  {
    var i := 0;
    while i < a.Length
      invariant 0 <= i <= a.Length
      invariant Sorted(a[..i], f, d)
      invariant multiset(a[..]) == multiset(old(a[..]))
    {
      InsertLast(a, i, f, d);
      i := i + 1;
    }
    assert a[..a.Length] == a[..];
  }

  /** Sinks `a[i]` into the sorted prefix `a[..i]` by swapping it with each row it must precede. */
  method InsertLast(a: array<Row>, i: nat, f: SortField, d: SortDirection)
    requires i < a.Length && Sorted(a[..i], f, d)
    modifies a
    ensures Sorted(a[..i + 1], f, d)
    ensures multiset(a[..]) == multiset(old(a[..]))
  {
    StartInserting(a[..], i, f, d);
    var j := i;
    while j > 0 && !Before(f, d, a[j - 1], a[j])
      invariant 0 <= j <= i
      invariant Inserting(a[..], i, j, f, d)
      invariant multiset(a[..]) == multiset(old(a[..]))
    {
      ghost var s := a[..];
      SwapKeepsInserting(s, i, j, f, d);
      SwapKeepsMultiset(s, j);
      a[j - 1], a[j] := a[j], a[j - 1];
      assert a[..] == s[j - 1 := s[j]][j := s[j - 1]];
      j := j - 1;
    }
    InsertingDone(a[..], i, j, f, d);
    assert a[..][..i + 1] == a[..i + 1];
  }

  /** A sorted prefix `s[..i]` starts the insertion of `s[i]`. */
  lemma StartInserting(s: seq<Row>, i: nat, f: SortField, d: SortDirection)
    requires i < |s| && Sorted(s[..i], f, d)
    ensures Inserting(s, i, i, f, d)
  {
    forall p, q | 0 <= p < q < i
      ensures Before(f, d, s[p], s[q])
    {
      assert s[p] == s[..i][p] && s[q] == s[..i][q];
    }
  }

  lemma SwapKeepsMultiset(s: seq<Row>, j: nat)
    requires 0 < j < |s|
    ensures multiset(s[j - 1 := s[j]][j := s[j - 1]]) == multiset(s)
  {
  }

  /** The table's `[...rows].sort(...)`: a sorted copy holding exactly the same rows. */
  method SortedRows(rows: seq<Row>, f: SortField, d: SortDirection) returns (r: seq<Row>)
    ensures Sorted(r, f, d)
    ensures multiset(r) == multiset(rows)
  {
    var a := new Row[|rows|](i requires 0 <= i < |rows| => rows[i]);
    assert a[..] == rows;
    SortRows(a, f, d);
    r := a[..];
  }

  /** With distinct names, a name-sorted table is strictly ordered. */
  lemma SortedByNameIsStrict(s: seq<Row>, d: SortDirection)
    requires Sorted(s, Name, d)
    requires forall i, j :: 0 <= i < j < |s| ==> s[i].model.name != s[j].model.name
    ensures forall i, j :: 0 <= i < j < |s| ==>
      if d == Asc then LexLt(s[i].model.name, s[j].model.name) else LexLt(s[j].model.name, s[i].model.name)
  {
  }

  /** Sorting by total cost ascending puts the cheapest row first. */
  lemma CheapestFirst(s: seq<Row>)
    requires Sorted(s, TotalCost, Asc) && s != []
    ensures forall i :: 0 <= i < |s| ==> s[0].costs.total <= s[i].costs.total
  {
    forall i | 0 < i < |s|
      ensures s[0].costs.total <= s[i].costs.total
    {
      assert Before(TotalCost, Asc, s[0], s[i]);
    }
  }

  /** The input-cost and output-cost fields order rows by total cost too. */
  lemma CostFieldsSortByTotal(s: seq<Row>, f: SortField, d: SortDirection)
    requires f != Name
    ensures Sorted(s, f, d) <==> Sorted(s, TotalCost, d)
  {
    assert forall a, b :: Before(f, d, a, b) == Before(TotalCost, d, a, b);
  }

  /** A header click: the current field flips direction, another field starts ascending. */
  function NextSort(field: SortField, dir: SortDirection, clicked: SortField): (r: (SortField, SortDirection))
    ensures r.0 == clicked
    ensures clicked == field ==> r.1 != dir
    ensures clicked != field ==> r.1 == Asc
  {
    if clicked == field then (field, if dir == Asc then Desc else Asc) else (clicked, Asc)
  }

  /** Clicking the same header twice restores the sort state. */
  lemma SameHeaderTwiceRestores(field: SortField, dir: SortDirection)
    ensures var s := NextSort(field, dir, field); NextSort(s.0, s.1, field) == (field, dir)
  {
  }

  /** Clicking a new header and then again sorts by it descending. */
  lemma NewHeaderTwiceDescends(field: SortField, dir: SortDirection, clicked: SortField)
    requires clicked != field
    ensures var s := NextSort(field, dir, clicked); NextSort(s.0, s.1, clicked) == (clicked, Desc)
  {
  }

  /** The table's sort state. */
  class SortState {
    var sortField: SortField
    var sortDirection: SortDirection

    constructor ()
      ensures sortField == Name && sortDirection == Asc
    {
      sortField := Name;
      sortDirection := Asc;
    }

    method HandleSort(clicked: SortField)
      modifies this
      ensures (sortField, sortDirection) == NextSort(old(sortField), old(sortDirection), clicked)
    {
      if clicked == sortField {
        sortDirection := if sortDirection == Asc then Desc else Asc;
      } else {
        sortField := clicked;
        sortDirection := Asc;
      }
    }
  }

  /** A row's checkbox: toggles the model's id in the comparison selection. */
  function HandleModelToggle(selectedIds: seq<string>, id: string): (r: seq<string>)
    ensures id in r <==> id !in selectedIds
    ensures forall other :: other != id ==> (other in r <==> other in selectedIds)
    ensures id !in selectedIds ==> r == selectedIds + [id]
    ensures id in selectedIds ==> IsSubsequence(r, selectedIds) && multiset(r) == multiset(selectedIds)[id := 0]
  {
    Toggle(selectedIds, id)
  }
}
