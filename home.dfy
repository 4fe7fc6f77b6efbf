/** The storefront home page's catalogue: which products are shown, the
    category tags derived from them, the tag-and-search filter, and the
    single open "buy" panel.

    A product here is what the page reads of it: its id, its column id as
    text, its own name and its translation key (the static fallback products
    have a key and no name, database products a name and no key). The
    active language's translation table is the map `t`. */
module Home {
  import opened Common
  import opened Schema

  /** Product ids are numbers for database rows and strings for the
      fallback list; strict equality never equates the two kinds. */
  datatype ItemId = NumericId(n: int) | TextId(s: string)

  datatype Item = Item(id: ItemId, columnKey: string, name: Option<string>, nameKey: Option<string>)

  /** A database product as the page sees it. */
  function FromProduct(p: Product): (item: Item)
    ensures item.id == NumericId(p.id) && item.columnKey == IntToString(p.columnId)
    ensures item.name == Some(p.name) && item.nameKey.None?
  {
    Item(NumericId(p.id), IntToString(p.columnId), Some(p.name), None)
  }

  /** The shown products: the database list when it arrived and is not
      empty, the fallback list otherwise. */
  function DisplayedProducts(db: Option<seq<Item>>, fallback: seq<Item>): (r: seq<Item>)
    ensures db.Some? && db.value != [] ==> r == db.value
    ensures db.None? || db.value == [] ==> r == fallback
  {
    if db.Some? && |db.value| > 0 then db.value else fallback
  }

  // ----------------------------------------------------------------------
  // Categories

  /** The distinct elements of `s`, each once, in order of first
      occurrence (the iteration order of a JavaScript `Set`). */
  function Distinct(s: seq<string>): (r: seq<string>)
    ensures forall i, j :: 0 <= i < j < |r| ==> r[i] != r[j]
    ensures forall x :: x in r <==> x in s
  {
    if s == [] then []
    else
      var rest := Distinct(s[..|s| - 1]);
      var last := s[|s| - 1];
      assert forall x :: x in s <==> x in s[..|s| - 1] || x == last by {
        assert s == s[..|s| - 1] + [last];
      }
      if last in rest then rest else rest + [last]
  }

  /** Index of the first occurrence of `x` in `s`. */
  function FirstIndex(s: seq<string>, x: string): (k: nat)
    requires x in s
    ensures k < |s| && s[k] == x && forall j :: 0 <= j < k ==> s[j] != x
  {
    if s[0] == x then 0 else 1 + FirstIndex(s[1..], x)
  }

  lemma FirstIndexOfPrefix(s: seq<string>, n: nat, x: string)
    requires n <= |s| && x in s[..n]
    ensures x in s && FirstIndex(s, x) == FirstIndex(s[..n], x)
  {
    var k := FirstIndex(s[..n], x);
    assert s[k] == x;
  }

  /** `Distinct` lists the elements in the order they first occur. */
  lemma {:induction false} DistinctKeepsFirstOccurrenceOrder(s: seq<string>)
    ensures forall i, j :: 0 <= i < j < |Distinct(s)| ==>
      FirstIndex(s, Distinct(s)[i]) < FirstIndex(s, Distinct(s)[j])
  {
    if s != [] {
      var init := s[..|s| - 1];
      var last := s[|s| - 1];
      var rest := Distinct(init);
      var r := Distinct(s);
      DistinctKeepsFirstOccurrenceOrder(init);
      assert s == init + [last];
      forall i | 0 <= i < |rest| ensures FirstIndex(s, rest[i]) == FirstIndex(init, rest[i]) {
        FirstIndexOfPrefix(s, |s| - 1, rest[i]);
      }
      forall i, j | 0 <= i < j < |r| ensures FirstIndex(s, r[i]) < FirstIndex(s, r[j]) {
        if j == |rest| {
          assert r[j] == last && last !in init;
          assert FirstIndex(s, last) == |s| - 1;
          assert FirstIndex(s, r[i]) == FirstIndex(init, rest[i]) < |init|;
        } else {
          assert r[i] == rest[i] && r[j] == rest[j];
        }
      }
    }
  }

  function ColumnKeys(ps: seq<Item>): (r: seq<string>)
    ensures |r| == |ps| && forall i :: 0 <= i < |ps| ==> r[i] == ps[i].columnKey
  {
    seq(|ps|, i requires 0 <= i < |ps| => ps[i].columnKey)
  }

  /** The category tags: "All", then each column id once, in order of first
      appearance among the shown products. */
  function Categories(ps: seq<Item>): (r: seq<string>)
    ensures r != [] && r[0] == "All"
    ensures forall i :: 0 <= i < |ps| ==> ps[i].columnKey in r[1..]
    ensures forall i :: 1 <= i < |r| ==> exists j :: 0 <= j < |ps| && ps[j].columnKey == r[i]
    ensures forall i, j :: 1 <= i < j < |r| ==> r[i] != r[j]
  {
    var keys := ColumnKeys(ps);
    var d := Distinct(keys);
    var r := ["All"] + d;
    assert r[1..] == d;
    assert forall i :: 0 <= i < |ps| ==> ps[i].columnKey == keys[i];
    assert forall i :: 1 <= i < |r| ==> r[i] == d[i - 1] && d[i - 1] in keys;
    r
  }

  // ----------------------------------------------------------------------
  // Filter

  /** `t[product.nameKey] || product.name`: the translation when it is
      present and not empty, else the product's own name, which the
      fallback products lack. A missing key looks up "undefined". */
  function DisplayName(item: Item, t: map<string, string>): (r: Option<string>)
    ensures var tr := Lookup(t, Rendered(item.nameKey));
      r == (if tr.Some? && tr.value != "" then tr else item.name)
  {
    OrElse(Lookup(t, Rendered(item.nameKey)), item.name)
  }

  /** The filter's test for one product, given that its name is known
      whenever the query is not empty. */
  predicate Keep(item: Item, tag: string, query: string, t: map<string, string>) {
    && (tag == "All" || item.columnKey == tag)
    && (query == "" || (DisplayName(item, t).Some?
                        && Contains(ToLower(DisplayName(item, t).value), ToLower(query))))
  }

  /** The search throws (`toLowerCase` of undefined) exactly when the query
      is not empty and some shown product has no name. */
  predicate SearchThrows(ps: seq<Item>, query: string, t: map<string, string>) {
    query != "" && exists i :: 0 <= i < |ps| && DisplayName(ps[i], t).None?
  }

  /** `filteredProducts`; `None` when rendering throws. */
  function Filtered(ps: seq<Item>, tag: string, query: string, t: map<string, string>): (r: Option<seq<Item>>)
    ensures r.None? <==> SearchThrows(ps, query, t)
    ensures r.Some? ==> IsSubsequence(r.value, ps)
    ensures r.Some? ==> forall i :: 0 <= i < |r.value| ==> Keep(r.value[i], tag, query, t)
    ensures r.Some? ==> forall i :: 0 <= i < |ps| && Keep(ps[i], tag, query, t) ==> ps[i] in r.value
    ensures r.Some? ==> multiset(r.value) <= multiset(ps)
    ensures r.Some? ==> forall i :: 0 <= i < |ps| && Keep(ps[i], tag, query, t) ==> multiset(r.value)[ps[i]] == multiset(ps)[ps[i]]
  {
    if SearchThrows(ps, query, t) then None
    else
      var keep := (item: Item) => Keep(item, tag, query, t);
      FilterIsSubsequence(ps, keep);
      Some(Filter(ps, keep))
  }

  /** With the tag "All" and an empty query every shown product is kept,
      in order. */
  lemma AllWithEmptyQueryKeepsEverything(ps: seq<Item>, t: map<string, string>)
    ensures Filtered(ps, "All", "", t) == Some(ps)
  {
    FilterAll(ps, (item: Item) => Keep(item, "All", "", t));
  }

  /** A product is kept exactly when its tag matches and its name contains
      the query, ignoring case. */
  lemma KeptExactlyWhenMatching(ps: seq<Item>, tag: string, query: string, t: map<string, string>, k: nat)
    requires k < |ps| && !SearchThrows(ps, query, t)
    ensures ps[k] in Filtered(ps, tag, query, t).value <==>
      && (tag == "All" || ps[k].columnKey == tag)
      && (query == "" || Contains(ToLower(DisplayName(ps[k], t).value), ToLower(query)))
  {
    var r := Filtered(ps, tag, query, t).value;
    if ps[k] in r {
      var i :| 0 <= i < |r| && r[i] == ps[k];
      assert Keep(r[i], tag, query, t);
    }
  }

  // ----------------------------------------------------------------------
  // Page state

  /** The open panel after a click on product `id`'s button: a click on the
      open product closes it, a click on another opens that one. */
  function Toggle(open: Option<ItemId>, id: ItemId): (r: Option<ItemId>)
    ensures r == Some(id) <==> open != Some(id)
    ensures r.None? <==> open == Some(id)
  {
    if open == Some(id) then None else Some(id)
  }

  /** Two clicks on the same button restore a page where that product or
      none was open. */
  lemma ToggleTwice(open: Option<ItemId>, id: ItemId)
    requires open.None? || open == Some(id)
    ensures Toggle(Toggle(open, id), id) == open
  {
  }

  /** The page's three pieces of state. */
  class HomeState {
    var searchQuery: string
    var selectedTag: string
    var clickedProductId: Option<ItemId>

    constructor ()
      ensures searchQuery == "" && selectedTag == "All" && clickedProductId.None?
    {
      searchQuery, selectedTag, clickedProductId := "", "All", None;
    }

    /** The products the page lists for its current state. */
    function Visible(db: Option<seq<Item>>, fallback: seq<Item>, t: map<string, string>): (r: Option<seq<Item>>)
      reads this
      ensures r.Some? ==> IsSubsequence(r.value, DisplayedProducts(db, fallback))
      ensures selectedTag == "All" && searchQuery == "" ==> r == Some(DisplayedProducts(db, fallback))
    {
      AllWithEmptyQueryKeepsEverything(DisplayedProducts(db, fallback), t);
      Filtered(DisplayedProducts(db, fallback), selectedTag, searchQuery, t)
    }

    /** Whether product `id`'s panel is open; at most one is. */
    predicate IsOpen(id: ItemId)
      reads this
    {
      clickedProductId == Some(id)
    }

    method SetSearchQuery(query: string)
      modifies this
      ensures searchQuery == query
      ensures selectedTag == old(selectedTag) && clickedProductId == old(clickedProductId)
    {
      searchQuery := query;
    }

    method SelectTag(tag: string)
      modifies this
      ensures selectedTag == tag
      ensures searchQuery == old(searchQuery) && clickedProductId == old(clickedProductId)
    {
      selectedTag := tag;
    }

    /** The buy/close button of product `id`. */
    method ClickBuy(id: ItemId)
      modifies this
      ensures clickedProductId == Toggle(old(clickedProductId), id)
      ensures IsOpen(id) <==> !old(IsOpen(id))
      ensures forall other :: other != id ==> !IsOpen(other)
      ensures searchQuery == old(searchQuery) && selectedTag == old(selectedTag)
    {
      clickedProductId := if clickedProductId == Some(id) then None else Some(id);
    }
  }
}
