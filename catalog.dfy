/** The product listing page (`Products`): the mock catalogue, and the
    effect that derives the shown items from the search term, the category
    and the sort order. Prices are whole paise (one hundredth of a rupee),
    so 89.99 is 8999. */
module Catalog {
  import opened Common
  import Seqs

  datatype Item = Item(id: string, name: string, price: int, originalPrice: Option<int>, category: string)

  const WOMEN: seq<Item> := [
    Item("1", "Elegant Silk Scarf", 8999, None, "women"),
    Item("2", "Winter Wool Coat", 29999, None, "women"),
    Item("3", "Floral Summer Dress", 12999, None, "women")]

  const MEN: seq<Item> := [
    Item("4", "Classic Leather Jacket", 39999, None, "men"),
    Item("5", "Cotton Dress Shirt", 7999, None, "men"),
    Item("6", "Wool Blazer", 24999, None, "men")]

  const ACCESSORIES: seq<Item> := [
    Item("7", "Leather Wallet", 5999, None, "accessories"),
    Item("8", "Designer Cap", 3999, None, "accessories"),
    Item("9", "Laptop Case", 8999, None, "accessories")]

  const SALE: seq<Item> := [
    Item("10", "Discounted Scarf", 4499, Some(8999), "sale"),
    Item("11", "Sale Jacket", 19999, Some(39999), "sale")]

  const GIFT_CARD: seq<Item> := [
    Item("12", "Digital Gift Card ₹1000", 100000, None, "gift-card"),
    Item("13", "Digital Gift Card ₹2500", 250000, None, "gift-card"),
    Item("14", "Physical Gift Card ₹5000", 500000, None, "gift-card")]

  /** The list the mock data keeps under a category key; none for any
      other key. */
  function CategoryList(category: string): (r: seq<Item>)
    ensures forall x | x in r :: x.category == category
  {
    match category
    case "women" => WOMEN
    case "men" => MEN
    case "accessories" => ACCESSORIES
    case "sale" => SALE
    case "gift-card" => GIFT_CARD
    case _ => []
  }

  /** `Object.values(mockCategoryItems).flat()`: the category lists in the
      order their keys were written. */
  function AllItems(): (r: seq<Item>)
    ensures |r| == 14
  {
    WOMEN + MEN + ACCESSORIES + SALE + GIFT_CARD
  }

  // ---------------------------------------------------------------------
  // The filters

  /** The search filter: the lower-cased name contains the lower-cased
      term. */
  function SearchKeeps(searchTerm: string): Item -> bool
  {
    (item: Item) => Includes(ToLower(item.name), ToLower(searchTerm))
  }

  /** The category filter. */
  function CategoryKeeps(category: string): Item -> bool
  {
    (item: Item) => item.category == category
  }

  /** What both filters let through, in the order of `items`. */
  function Selected(items: seq<Item>, searchTerm: string, category: string): (r: seq<Item>)
    ensures forall x :: x in r <==>
      && x in items
      && Includes(ToLower(x.name), ToLower(searchTerm))
      && (category == "all" || x.category == category)
  {
    var found := Seqs.Filter(items, SearchKeeps(searchTerm));
    if category == "all" then found else Seqs.Filter(found, CategoryKeeps(category))
  }

  /** Every item matches the empty term, so skipping the search filter for
      it changes nothing. */
  lemma EmptySearchKeepsAll(items: seq<Item>)
    ensures Seqs.Filter(items, SearchKeeps("")) == items
  {
    forall x | x in items
      ensures SearchKeeps("")(x)
    {
      assert ToLower("") == "";
      IncludesEmpty(ToLower(x.name));
    }
    Seqs.FilterAll(items, SearchKeeps(""));
  }

  lemma {:induction false} FilterOneCategory(list: seq<Item>, listCategory: string, category: string)
    requires forall x | x in list :: x.category == listCategory
    ensures Seqs.Filter(list, CategoryKeeps(category)) == if category == listCategory then list else []
  {
    if category == listCategory {
      Seqs.FilterAll(list, CategoryKeeps(category));
    } else {
      Seqs.FilterNone(list, CategoryKeeps(category));
    }
  }

  /** The category filter over the flattened lists, list by list. */
  lemma FilterFlattened(w: seq<Item>, m: seq<Item>, a: seq<Item>, s: seq<Item>, g: seq<Item>, category: string)
    requires forall x | x in w :: x.category == "women"
    requires forall x | x in m :: x.category == "men"
    requires forall x | x in a :: x.category == "accessories"
    requires forall x | x in s :: x.category == "sale"
    requires forall x | x in g :: x.category == "gift-card"
    ensures Seqs.Filter(w + m + a + s + g, CategoryKeeps(category)) ==
      match category
      case "women" => w
      case "men" => m
      case "accessories" => a
      case "sale" => s
      case "gift-card" => g
      case _ => []
  {
    var keep := CategoryKeeps(category);
    Seqs.FilterAppend(w + m + a + s, g, keep);
    Seqs.FilterAppend(w + m + a, s, keep);
    Seqs.FilterAppend(w + m, a, keep);
    Seqs.FilterAppend(w, m, keep);
    FilterOneCategory(w, "women", category);
    FilterOneCategory(m, "men", category);
    FilterOneCategory(a, "accessories", category);
    FilterOneCategory(s, "sale", category);
    FilterOneCategory(g, "gift-card", category);
    var r := Seqs.Filter(w + m + a + s + g, keep);
    assert "women" != "men" && "women" != "accessories" && "women" != "sale" && "women" != "gift-card";
    assert "men" != "accessories" && "men" != "sale" && "men" != "gift-card";
    assert "accessories" != "sale" && "accessories" != "gift-card" && "sale" != "gift-card";
    if category == "women" {
      assert r == w;
    } else if category == "men" {
      assert r == m;
    } else if category == "accessories" {
      assert r == a;
    } else if category == "sale" {
      assert r == s;
    } else if category == "gift-card" {
      assert r == g;
    } else {
      assert r == [];
    }
  }

  /** Picking a category in the select shows exactly the list the mock data
      keeps under that key. */
  lemma CategoryFilterGivesList(category: string)
    ensures Seqs.Filter(AllItems(), CategoryKeeps(category)) == CategoryList(category)
  {
    FilterFlattened(WOMEN, MEN, ACCESSORIES, SALE, GIFT_CARD, category);
    if category !in {"women", "men", "accessories", "sale", "gift-card"} {
      assert CategoryList(category) == [];
    }
  }

  // ---------------------------------------------------------------------
  // The orders

  datatype SortKey = Name | PriceLow | PriceHigh

  /** The comparator of each option as "may come before". `collate` is the
      browser's `localeCompare` order on names. Each order is total and
      transitive whenever name collation is. */
  function Comparator(sortBy: SortKey, collate: (string, string) -> bool): (le: (Item, Item) -> bool)
    ensures Seqs.TotalPreorder(collate) ==> Seqs.TotalPreorder(le)
  {
    match sortBy
    case Name =>
      var le := (a: Item, b: Item) => collate(a.name, b.name);
      assert Seqs.TotalPreorder(collate) ==> Seqs.TotalPreorder(le) by {
        if Seqs.TotalPreorder(collate) {
          forall a: Item, b: Item, c: Item | le(a, b) && le(b, c)
            ensures le(a, c)
          {
            assert collate(a.name, b.name) && collate(b.name, c.name);
          }
          forall a: Item, b: Item
            ensures le(a, b) || le(b, a)
          {
            assert collate(a.name, b.name) || collate(b.name, a.name);
          }
        }
      }
      le
    case PriceLow => (a: Item, b: Item) => a.price <= b.price
    case PriceHigh => (a: Item, b: Item) => a.price >= b.price
  }

  /** The shown list is the stable sort of the selection under the chosen
      comparator: a sorted permutation that keeps the catalogue order of
      items the comparator ranks level. */
  ghost predicate Shows(items: seq<Item>, shown: seq<Item>, searchTerm: string, category: string, sortBy: SortKey,
                        collate: (string, string) -> bool)
  {
    && multiset(shown) == multiset(Selected(items, searchTerm, category))
    && Seqs.SortedBy(Comparator(sortBy, collate), shown)
    && Seqs.StableFor(Comparator(sortBy, collate), shown, Selected(items, searchTerm, category))
  }

  /** The controls decide the shown list completely, ties included. */
  lemma ShowsUnique(items: seq<Item>, a: seq<Item>, b: seq<Item>, searchTerm: string, category: string,
                    sortBy: SortKey, collate: (string, string) -> bool)
    requires Seqs.TotalPreorder(collate)
    requires Shows(items, a, searchTerm, category, sortBy, collate)
    requires Shows(items, b, searchTerm, category, sortBy, collate)
    ensures a == b
  {
    var le := Comparator(sortBy, collate);
    var selected := Selected(items, searchTerm, category);
    forall z
      ensures Seqs.Filter(a, Seqs.Tied(le, z)) == Seqs.Filter(b, Seqs.Tied(le, z))
    {
      assert Seqs.Filter(a, Seqs.Tied(le, z)) == Seqs.Filter(selected, Seqs.Tied(le, z));
    }
    Seqs.SortedStableUnique(a, b, le);
  }

  /** What the shown list promises: it holds exactly the items of `items`
      that match the search and the category, never more items than there
      are, with prices non-decreasing or non-increasing as chosen. */
  lemma ShowsMeans(items: seq<Item>, shown: seq<Item>, searchTerm: string, category: string, sortBy: SortKey,
                   collate: (string, string) -> bool)
    requires Shows(items, shown, searchTerm, category, sortBy, collate)
    ensures forall x :: x in shown <==>
      && x in items
      && Includes(ToLower(x.name), ToLower(searchTerm))
      && (category == "all" || x.category == category)
    ensures category != "all" ==> forall i | 0 <= i < |shown| :: shown[i].category == category
    ensures |shown| <= |items|
    ensures sortBy == PriceLow ==> forall i, j | 0 <= i < j < |shown| :: shown[i].price <= shown[j].price
    ensures sortBy == PriceHigh ==> forall i, j | 0 <= i < j < |shown| :: shown[i].price >= shown[j].price
    ensures sortBy == Name ==> forall i, j | 0 <= i < j < |shown| :: collate(shown[i].name, shown[j].name)
  {
    var selected := Selected(items, searchTerm, category);
    forall x
      ensures x in shown <==> x in selected
    {
      assert x in shown <==> x in multiset(shown);
      assert x in selected <==> x in multiset(selected);
    }
    forall i | 0 <= i < |shown|
      ensures category != "all" ==> shown[i].category == category
    {
      assert shown[i] in shown;
    }
    assert |shown| == |multiset(shown)| == |selected|;
    var found := Seqs.Filter(items, SearchKeeps(searchTerm));
    assert |selected| <= |found| <= |items|;
    if sortBy == PriceLow {
      assert forall i, j | 0 <= i < j < |shown| :: Comparator(PriceLow, collate)(shown[i], shown[j]);
    } else if sortBy == PriceHigh {
      assert forall i, j | 0 <= i < j < |shown| :: Comparator(PriceHigh, collate)(shown[i], shown[j]);
    } else {
      assert forall i, j | 0 <= i < j < |shown| :: Comparator(Name, collate)(shown[i], shown[j]);
    }
  }

  /** The filter effect: the search filter when the term is not empty, the
      category filter unless it is 'all', then a sort of a copy. */
  method FilterAndSort(items: seq<Item>, searchTerm: string, category: string, sortBy: SortKey,
                       collate: (string, string) -> bool) returns (filtered: seq<Item>)
    requires Seqs.TotalPreorder(collate)
    ensures Shows(items, filtered, searchTerm, category, sortBy, collate)
  {
    filtered := items;
    if searchTerm != "" {
      filtered := Seqs.Filter(filtered, SearchKeeps(searchTerm));
    } else {
      EmptySearchKeepsAll(items);
    }
    if category != "all" {
      filtered := Seqs.Filter(filtered, CategoryKeeps(category));
    }
    assert filtered == Selected(items, searchTerm, category);
    var selected := filtered;
    filtered := Seqs.SortBy(selected, Comparator(sortBy, collate));
    Seqs.SortByStable(selected, Comparator(sortBy, collate));
  }

  /** The page state: the loaded catalogue, the controls, and the list the
      effect derived from them. */
  class ProductsPage {
    const collate: (string, string) -> bool
    var items: seq<Item>
    var filteredItems: seq<Item>
    var searchTerm: string
    var selectedCategory: string
    var sortBy: SortKey

    /** After every effect has run, the shown list follows the controls. */
    ghost predicate Valid()
      reads this
    {
      && Seqs.TotalPreorder(collate)
      && Shows(items, filteredItems, searchTerm, selectedCategory, sortBy, collate)
    }

    /** The mounted page: the whole catalogue, no search, every category,
        sorted by name. */
    constructor (collate: (string, string) -> bool)
      requires Seqs.TotalPreorder(collate)
      ensures Valid()
      ensures this.collate == collate
      ensures items == AllItems() && searchTerm == "" && selectedCategory == "all" && sortBy == Name
    {
      this.collate := collate;
      items := AllItems();
      searchTerm, selectedCategory, sortBy := "", "all", Name;
      new;
      Refresh();
    }

    /** The filter effect, run whenever the catalogue or a control changes:
        the shown list is derived afresh from them. */
    method Refresh()
      requires Seqs.TotalPreorder(collate)
      modifies this
      ensures Valid()
      ensures items == old(items) && searchTerm == old(searchTerm)
      ensures selectedCategory == old(selectedCategory) && sortBy == old(sortBy)
    {
      filteredItems := FilterAndSort(items, searchTerm, selectedCategory, sortBy, collate);
    }

    /** Typing in the search box. */
    method SetSearchTerm(term: string)
      requires Valid()
      modifies this
      ensures Valid()
      ensures searchTerm == term
      ensures items == old(items) && selectedCategory == old(selectedCategory) && sortBy == old(sortBy)
    {
      searchTerm := term;
      Refresh();
    }

    /** Picking a category. */
    method SetSelectedCategory(category: string)
      requires Valid()
      modifies this
      ensures Valid()
      ensures selectedCategory == category
      ensures items == old(items) && searchTerm == old(searchTerm) && sortBy == old(sortBy)
    {
      selectedCategory := category;
      Refresh();
    }

    /** Picking an order. */
    method SetSortBy(key: SortKey)
      requires Valid()
      modifies this
      ensures Valid()
      ensures sortBy == key
      ensures items == old(items) && searchTerm == old(searchTerm) && selectedCategory == old(selectedCategory)
    {
      sortBy := key;
      Refresh();
    }
  }
}
