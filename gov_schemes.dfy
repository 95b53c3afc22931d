/**
 * The schemes page: the selected category, which a filter button sets, and
 * the schemes shown for it.
 */
module GovSchemes {
  import opened Basics
  import opened Schemes

  /**
   * `schemes.filter(scheme => scheme.category === category)`: each scheme of
   * that category as often as in `ss`, no other scheme, in table order.
   */
  function InCategory(ss: seq<Scheme>, category: string): (r: seq<Scheme>)
    ensures forall s :: multiset(r)[s] == if s.category == category then multiset(ss)[s] else 0
    ensures Subsequence(r, ss)
  {
    if ss == [] then []
    else
      var rest := InCategory(ss[1..], category);
      FilterConsCount(ss, (s: Scheme) => s.category == category, rest);
      if ss[0].category == category then [ss[0]] + rest else rest
  }

  /** The component's state: the category of the active filter button. */
  class SchemeBrowser {
    var activeCategory: string

    constructor()
      ensures activeCategory == AllCategory
    {
      activeCategory := AllCategory;
    }

    /** A filter button's click. */
    method Select(category: string)
      modifies this
      ensures activeCategory == category
    {
      activeCategory := category;
    }

    /** filteredSchemes: the whole table for 'All', else the schemes of the active category in table order. */
    function Shown(): (r: seq<Scheme>)
      reads this
      ensures activeCategory == AllCategory ==> r == SchemeTable
      ensures activeCategory != AllCategory ==>
        && Subsequence(r, SchemeTable)
        && (forall i :: 0 <= i < |r| ==> r[i].category == activeCategory)
        && (forall s :: s in SchemeTable && s.category == activeCategory ==> s in r)
    {
      InCategoryMembers(SchemeTable, activeCategory);
      if activeCategory == AllCategory then SchemeTable else InCategory(SchemeTable, activeCategory)
    }
  }

  /** What the counts say scheme by scheme: every shown scheme has the category, and every scheme of it is shown. */
  lemma InCategoryMembers(ss: seq<Scheme>, category: string)
    ensures forall i :: 0 <= i < |InCategory(ss, category)| ==> InCategory(ss, category)[i].category == category
    ensures forall s :: s in ss && s.category == category ==> s in InCategory(ss, category)
  {
    var r := InCategory(ss, category);
    forall i | 0 <= i < |r| ensures r[i].category == category {
      assert multiset(r)[r[i]] > 0;
    }
  }

  /** Filtering finds something exactly when the category is one of the table's categories. */
  lemma InCategoryNonEmpty(ss: seq<Scheme>, category: string)
    ensures InCategory(ss, category) != [] <==> category in CategoriesOf(ss)
  {
    var cats := CategoriesOf(ss);
    var r := InCategory(ss, category);
    if category in cats {
      var i :| 0 <= i < |ss| && cats[i] == category;
      assert multiset(ss)[ss[i]] > 0;
      assert multiset(r)[ss[i]] > 0;
    }
    if r != [] {
      assert multiset(r)[r[0]] > 0;
      assert r[0] in ss;
      var j :| 0 <= j < |ss| && ss[j] == r[0];
      assert cats[j] == category;
    }
  }

  /** A category shows some scheme exactly when it has a filter button other than 'All'. */
  lemma ButtonsShowSchemes(category: string)
    ensures InCategory(SchemeTable, category) != [] <==> category in Categories()[1..]
  {
    InCategoryNonEmpty(SchemeTable, category);
  }

  lemma {:induction false} SubsequenceMembers<T>(a: seq<T>, b: seq<T>)
    requires Subsequence(a, b)
    ensures forall x :: x in a ==> x in b
  {
    if a != [] {
      if a[0] == b[0] && Subsequence(a[1..], b[1..]) {
        SubsequenceMembers(a[1..], b[1..]);
        assert forall x :: x in a ==> x == a[0] || x in a[1..];
      } else {
        SubsequenceMembers(a, b[1..]);
      }
    }
  }
}
