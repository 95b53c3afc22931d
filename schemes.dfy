/**
 * The government-schemes table shown by the schemes page, and the category
 * list derived from it: 'All' followed by the distinct categories in the
 * order they first occur.
 */
module Schemes {
  import opened Basics

  /** A scheme card; the descriptive texts are not part of this model. */
  datatype Scheme = Scheme(id: nat, title: string, category: string)

  const AllCategory: string := "All"

  const SchemeTable: seq<Scheme> := [
    Scheme(1, "PM-KISAN (Pradhan Mantri Kisan Samman Nidhi)", "Income Support"),
    Scheme(2, "Soil Health Card Scheme", "Soil Management"),
    Scheme(3, "Pradhan Mantri Fasal Bima Yojana (PMFBY)", "Insurance"),
    Scheme(4, "Kisan Credit Card (KCC)", "Credit"),
    Scheme(5, "PM Kisan Maandhan Yojana", "Pension"),
    Scheme(6, "National Agriculture Market (e-NAM)", "Market Access"),
    Scheme(7, "Pradhan Mantri Krishi Sinchayee Yojana (PMKSY)", "Irrigation"),
    Scheme(8, "Paramparagat Krishi Vikas Yojana (PKVY)", "Organic Farming")
  ]

  /** `schemes.map(scheme => scheme.category)` */
  function CategoriesOf(ss: seq<Scheme>): (r: seq<string>)
    ensures |r| == |ss| && forall i :: 0 <= i < |ss| ==> r[i] == ss[i].category
  {
    seq(|ss|, i requires 0 <= i < |ss| => ss[i].category)
  }

  /**
   * Iterating a `Set` built from `xs`: each value once, at its first
   * occurrence, skipping the values already in `seen`.
   */
  function Unique(xs: seq<string>, seen: set<string>): (r: seq<string>)
    ensures Distinct(r)
    ensures forall x :: x in r <==> x in xs && x !in seen
    ensures Subsequence(r, xs)
    ensures forall i, j :: 0 <= i < j < |r| ==> FirstIndex(xs, r[i]) < FirstIndex(xs, r[j])
  {
    if xs == [] then []
    else if xs[0] in seen then
      var rest := Unique(xs[1..], seen);
      assert forall x :: x in xs[1..] ==> x in xs;
      FirstIndexTail(xs, rest);
      rest
    else
      var rest := Unique(xs[1..], seen + {xs[0]});
      assert forall x :: x in xs ==> x == xs[0] || x in xs[1..];
      FirstIndexTail(xs, rest);
      [xs[0]] + rest
  }

  /** Values of the tail other than the head are first met one position later in the whole sequence. */
  lemma FirstIndexTail(xs: seq<string>, ys: seq<string>)
    requires xs != []
    requires forall y :: y in ys ==> y in xs[1..] && y != xs[0]
    ensures forall y :: y in ys ==> y in xs && FirstIndex(xs, y) == FirstIndex(xs[1..], y) + 1
  {
    forall y | y in ys ensures y in xs && FirstIndex(xs, y) == FirstIndex(xs[1..], y) + 1 {
      var j :| 0 <= j < |xs[1..]| && xs[1..][j] == y;
      assert xs[j + 1] == y;
    }
  }

  /** `categories`: 'All', then each category of the table once. */
  function Categories(): (r: seq<string>)
    ensures |r| >= 1 && r[0] == AllCategory
    ensures forall c :: c in r[1..] <==> c in CategoriesOf(SchemeTable)
    ensures Subsequence(r[1..], CategoriesOf(SchemeTable))
    ensures Distinct(r[1..])
    ensures forall i, j :: 0 <= i < j < |r| - 1 ==>
      FirstIndex(CategoriesOf(SchemeTable), r[1..][i]) < FirstIndex(CategoriesOf(SchemeTable), r[1..][j])
  {
    [AllCategory] + Unique(CategoriesOf(SchemeTable), {})
  }

  /** A value that occurs before any repeat is kept by `Unique`, so order is that of first occurrence. */
  lemma {:induction false} UniqueOfDistinct(xs: seq<string>)
    requires Distinct(xs)
    ensures Unique(xs, {}) == xs
  {
    UniqueOfDistinctFrom(xs, {});
  }

  lemma {:induction false} UniqueOfDistinctFrom(xs: seq<string>, seen: set<string>)
    requires Distinct(xs) && forall x :: x in xs ==> x !in seen
    ensures Unique(xs, seen) == xs
  {
    if xs != [] {
      DistinctTail(xs);
      UniqueOfDistinctFrom(xs[1..], seen + {xs[0]});
    }
  }

  /** The tail of a distinct sequence is distinct and does not hold its head. */
  lemma DistinctTail(xs: seq<string>)
    requires Distinct(xs) && xs != []
    ensures Distinct(xs[1..])
    ensures xs[0] !in xs[1..]
  {
    var tail := xs[1..];
    assert forall i :: 0 <= i < |tail| ==> tail[i] == xs[i + 1];
    forall x | x in tail ensures x != xs[0] {
      var j :| 0 <= j < |tail| && tail[j] == x;
      assert xs[j + 1] == x;
    }
  }

  /** The ids run 1 to 8, so they are unique. */
  lemma IdsUnique()
    ensures forall i :: 0 <= i < |SchemeTable| ==> SchemeTable[i].id == i + 1
    ensures forall i, j :: 0 <= i < j < |SchemeTable| ==> SchemeTable[i].id != SchemeTable[j].id
  {
  }

  const TableCategories: seq<string> := [
    "Income Support", "Soil Management", "Insurance", "Credit",
    "Pension", "Market Access", "Irrigation", "Organic Farming"]

  lemma CategoriesOfTable()
    ensures CategoriesOf(SchemeTable) == TableCategories
  {
    var r := CategoriesOf(SchemeTable);
    assert forall i :: 0 <= i < 8 ==> r[i] == TableCategories[i];
  }

  /** No scheme is filed under 'All', and the eight categories are distinct. */
  lemma TableCategoriesDistinct()
    ensures AllCategory !in TableCategories
    ensures Distinct(TableCategories)
  {
    var c := TableCategories;
    assert forall i :: 0 <= i < 8 ==> c[i][0] != 'A';
    forall i, j | 0 <= i < j < 8
      ensures c[i] != c[j]
    {
      if c[i][0] == c[j][0] {
        assert |c[0]| == 14 && |c[2]| == 9 && |c[6]| == 10;
      }
    }
  }

  /** With the table as it is, `categories` is 'All' followed by the eight categories in table order, none repeated. */
  lemma CategoriesValue()
    ensures Categories() == [AllCategory] + CategoriesOf(SchemeTable)
    ensures |Categories()| == 9 && Distinct(Categories())
  {
    CategoriesOfTable();
    TableCategoriesDistinct();
    UniqueOfDistinct(CategoriesOf(SchemeTable));
  }
}
