/** The product list page's filter and sort effect: category, search and price stages,
    then an optional sort. */
module ProductFilter {
  import opened Base
  import opened Text
  import opened Entities

  datatype SortKey = PriceLow | PriceHigh | ByRating | ByName | Unsorted

  /** The `switch (sortBy)`; 'default' and every unknown key leave the order alone. */
  function ParseSortKey(s: string): (k: SortKey)
    ensures k == Unsorted <==> s != "price-low" && s != "price-high" && s != "rating" && s != "name"
  {
    if s == "price-low" then PriceLow
    else if s == "price-high" then PriceHigh
    else if s == "rating" then ByRating
    else if s == "name" then ByName
    else Unsorted
  }

  /** Lexicographic order on code points, standing in for `localeCompare(...) <= 0`. */
  predicate LexLe(a: string, b: string)
  {
    a == [] || (b != [] && (a[0] < b[0] || (a[0] == b[0] && LexLe(a[1..], b[1..]))))
  }

  lemma {:induction false} LexLeTotal(a: string, b: string)
    ensures LexLe(a, b) || LexLe(b, a)
  {
    if a != [] && b != [] && a[0] == b[0] {
      LexLeTotal(a[1..], b[1..]);
    }
  }

  lemma {:induction false} LexLeTransitive(a: string, b: string, c: string)
    requires LexLe(a, b) && LexLe(b, c)
    ensures LexLe(a, c)
  {
    if a != [] && b != [] && c != [] && a[0] == b[0] && b[0] == c[0] {
      LexLeTransitive(a[1..], b[1..], c[1..]);
    }
  }

  /** `a` may come before `b`: the key's comparator returns a value <= 0 for (a, b). */
  predicate InOrder(k: SortKey, a: Product, b: Product)
  {
    match k
    case PriceLow => a.price <= b.price
    case PriceHigh => b.price <= a.price
    case ByRating => b.rating <= a.rating
    case ByName => LexLe(a.productName, b.productName)
    case Unsorted => true
  }

  lemma InOrderTotal(k: SortKey, a: Product, b: Product)
    ensures InOrder(k, a, b) || InOrder(k, b, a)
  {
    if k == ByName { LexLeTotal(a.productName, b.productName); }
  }

  lemma InOrderTransitive(k: SortKey, a: Product, b: Product, c: Product)
    requires InOrder(k, a, b) && InOrder(k, b, c)
    ensures InOrder(k, a, c)
  {
    if k == ByName { LexLeTransitive(a.productName, b.productName, c.productName); }
  }

  predicate Sorted(k: SortKey, s: seq<Product>)
  {
    forall i, j :: 0 <= i < j < |s| ==> InOrder(k, s[i], s[j])
  }

  /** Insert `x` before the first element it may precede (after all it may not). */
  function Insert(k: SortKey, x: Product, s: seq<Product>): (r: seq<Product>)
    ensures |r| == |s| + 1
  {
    if s == [] then [x]
    else if InOrder(k, x, s[0]) then [x] + s
    else [s[0]] + Insert(k, x, s[1..])
  }

  /** A stable sort: the result JavaScript's stable `Array.prototype.sort` produces. */
  function SortBy(k: SortKey, s: seq<Product>): (r: seq<Product>)
    ensures |r| == |s|
  {
    if s == [] then [] else Insert(k, s[0], SortBy(k, s[1..]))
  }

  /** `x` may precede every element of `s`. */
  predicate PrecedesAll(k: SortKey, x: Product, s: seq<Product>)
  {
    forall j :: 0 <= j < |s| ==> InOrder(k, x, s[j])
  }

  lemma SortedCons(k: SortKey, x: Product, s: seq<Product>)
    requires PrecedesAll(k, x, s) && Sorted(k, s)
    ensures Sorted(k, [x] + s)
  {
    var r := [x] + s;
    forall i, j | 0 <= i < j < |r| ensures InOrder(k, r[i], r[j]) {
      if i > 0 {
        assert r[i] == s[i - 1] && r[j] == s[j - 1];
      }
    }
  }

  lemma SortedTail(k: SortKey, s: seq<Product>)
    requires Sorted(k, s) && s != []
    ensures Sorted(k, s[1..]) && PrecedesAll(k, s[0], s[1..])
  {
    var tail := s[1..];
    forall i, j | 0 <= i < j < |tail| ensures InOrder(k, tail[i], tail[j]) {
      assert tail[i] == s[i + 1] && tail[j] == s[j + 1];
    }
    forall j | 0 <= j < |tail| ensures InOrder(k, s[0], tail[j]) {
      assert tail[j] == s[j + 1];
    }
  }

  /** Inserting adds exactly one copy of `x`. */
  lemma {:induction false} InsertPerm(k: SortKey, x: Product, s: seq<Product>)
    ensures multiset(Insert(k, x, s)) == multiset(s) + multiset{x}
    decreases |s|
  {
    if s != [] && !InOrder(k, x, s[0]) {
      InsertPerm(k, x, s[1..]);
      assert s == [s[0]] + s[1..];
    }
  }

  /** Inserting into a sorted list keeps it sorted. */
  lemma {:induction false} InsertSorted(k: SortKey, x: Product, s: seq<Product>)
    requires Sorted(k, s)
    ensures Sorted(k, Insert(k, x, s))
    decreases |s|
  {
    if s == [] {
    } else if InOrder(k, x, s[0]) {
      forall j | 0 <= j < |s| ensures InOrder(k, x, s[j]) {
        if j > 0 { InOrderTransitive(k, x, s[0], s[j]); }
      }
      SortedCons(k, x, s);
    } else {
      InOrderTotal(k, x, s[0]);
      SortedTail(k, s);
      var tail := s[1..];
      InsertSorted(k, x, tail);
      InsertPerm(k, x, tail);
      var t := Insert(k, x, tail);
      forall j | 0 <= j < |t| ensures InOrder(k, s[0], t[j]) {
        var y := t[j];
        assert y in multiset(t);
        if y != x {
          assert y in multiset(tail);
          var m :| 0 <= m < |tail| && tail[m] == y;
        }
      }
      SortedCons(k, s[0], t);
    }
  }

  /** Sorting yields a permutation of its input, ordered by the key. */
  lemma {:induction false} SortBySpec(k: SortKey, s: seq<Product>)
    ensures multiset(SortBy(k, s)) == multiset(s)
    ensures Sorted(k, SortBy(k, s))
  {
    if s != [] {
      SortBySpec(k, s[1..]);
      InsertPerm(k, s[0], SortBy(k, s[1..]));
      InsertSorted(k, s[0], SortBy(k, s[1..]));
      assert s == [s[0]] + s[1..];
    }
  }

  /** Sorting an already sorted list returns it unchanged. */
  lemma {:induction false} SortBySorted(k: SortKey, s: seq<Product>)
    requires Sorted(k, s)
    ensures SortBy(k, s) == s
  {
    if s != [] {
      var tail := s[1..];
      SortedTail(k, s);
      SortBySorted(k, tail);
      if tail != [] {
        assert InOrder(k, s[0], s[1]);
      }
      assert [s[0]] + tail == s;
    }
  }

  /** `a` and `b` compare equal: each may come before the other. */
  predicate Tied(k: SortKey, a: Product, b: Product)
  {
    InOrder(k, a, b) && InOrder(k, b, a)
  }

  /** The test "compares equal to `p`". */
  function TiedWith(k: SortKey, p: Product): Product -> bool
  {
    (q: Product) => Tied(k, q, p)
  }

  /** Two products tied with the same `p` may come in either order. */
  lemma TiedSameClass(k: SortKey, x: Product, y: Product, p: Product)
    requires Tied(k, x, p) && Tied(k, y, p)
    ensures InOrder(k, x, y)
  {
    InOrderTransitive(k, x, p, y);
  }

  /** Inserting `x` goes before every element tied with it, so among the elements tied with
      any `p` it lands first, and the others keep their order. */
  lemma {:induction false} InsertTies(k: SortKey, x: Product, s: seq<Product>, p: Product)
    ensures Filter(Insert(k, x, s), TiedWith(k, p))
            == (if Tied(k, x, p) then [x] else []) + Filter(s, TiedWith(k, p))
    decreases |s|
  {
    var t := TiedWith(k, p);
    if s == [] {
      FilterCons(x, [], t);
    } else if InOrder(k, x, s[0]) {
      FilterCons(x, s, t);
    } else {
      InsertTies(k, x, s[1..], p);
      FilterCons(s[0], Insert(k, x, s[1..]), t);
      FilterCons(s[0], s[1..], t);
      assert [s[0]] + s[1..] == s;
      if Tied(k, x, p) && Tied(k, s[0], p) {
        TiedSameClass(k, x, s[0], p);
      }
    }
  }

  /** The sort is stable: for every product `p`, the products that compare equal to `p` appear
      in the result in the order they had in the input. */
  lemma {:induction false} SortByStable(k: SortKey, s: seq<Product>, p: Product)
    ensures Filter(SortBy(k, s), TiedWith(k, p)) == Filter(s, TiedWith(k, p))
  {
    if s != [] {
      SortByStable(k, s[1..], p);
      InsertTies(k, s[0], SortBy(k, s[1..]), p);
      FilterCons(s[0], s[1..], TiedWith(k, p));
      assert [s[0]] + s[1..] == s;
    }
  }

  function SortProducts(sortBy: string, s: seq<Product>): seq<Product>
  {
    var k := ParseSortKey(sortBy);
    if k == Unsorted then s else SortBy(k, s)
  }

  /** `p.category.toLowerCase().includes(selectedCategory.toLowerCase())`. */
  predicate MatchesCategory(p: Product, selected: string)
  {
    Contains(ToLower(p.category), ToLower(selected))
  }

  /** The search term occurs, case-insensitively, in the name, the description or the category. */
  predicate MatchesSearch(p: Product, term: string)
  {
    var t := ToLower(term);
    Contains(ToLower(p.productName), t) || Contains(ToLower(p.description), t) || Contains(ToLower(p.category), t)
  }

  /** Both bounds inclusive; an empty minimum is 0 and an empty maximum is +infinity. */
  predicate InPriceRange(p: Product, min: Option<int>, max: Option<int>)
  {
    (if min.Some? then min.value else 0) <= p.price && (max.None? || p.price <= max.value)
  }

  predicate PriceFilterOn(min: Option<int>, max: Option<int>)
  {
    min.Some? || max.Some?
  }

  /** What the three filter stages ask of a product. */
  predicate Admitted(p: Product, category: string, search: string, min: Option<int>, max: Option<int>)
  {
    (category != "" ==> MatchesCategory(p, category))
    && (search != "" ==> MatchesSearch(p, search))
    && (PriceFilterOn(min, max) ==> InPriceRange(p, min, max))
  }

  function FilterByCategory(s: seq<Product>, category: string): seq<Product>
  {
    if category != "" then Filter(s, (p: Product) => MatchesCategory(p, category)) else s
  }

  function FilterBySearch(s: seq<Product>, search: string): seq<Product>
  {
    if search != "" then Filter(s, (p: Product) => MatchesSearch(p, search)) else s
  }

  function FilterByPrice(s: seq<Product>, min: Option<int>, max: Option<int>): seq<Product>
  {
    if PriceFilterOn(min, max) then Filter(s, (p: Product) => InPriceRange(p, min, max)) else s
  }

  /** The three filter stages in the effect's order. */
  function FilterProducts(all: seq<Product>, category: string, search: string,
                          min: Option<int>, max: Option<int>): (r: seq<Product>)
    ensures |r| <= |all|
    ensures forall i :: 0 <= i < |r| ==> r[i] in all
  {
    FilterByPrice(FilterBySearch(FilterByCategory(all, category), search), min, max)
  }

  /** The whole effect: filter, then sort. */
  function FilterAndSort(all: seq<Product>, category: string, search: string,
                         min: Option<int>, max: Option<int>, sortBy: string): (r: seq<Product>)
    ensures |r| <= |all|
  {
    SortProducts(sortBy, FilterProducts(all, category, search, min, max))
  }

  /** The filter stages only drop products: the result is an order-preserving subsequence
      of the catalogue holding exactly the admitted products. */
  lemma FilterProductsSpec(all: seq<Product>, category: string, search: string,
                           min: Option<int>, max: Option<int>)
    ensures var r := FilterProducts(all, category, search, min, max);
      IsSubsequence(r, all)
      && (forall i :: 0 <= i < |r| ==> r[i] in all && Admitted(r[i], category, search, min, max))
      && (forall i :: 0 <= i < |all| && Admitted(all[i], category, search, min, max) ==> all[i] in r)
  {
    FilterProductsSubsequence(all, category, search, min, max);
    FilterProductsSound(all, category, search, min, max);
    FilterProductsComplete(all, category, search, min, max);
  }

  lemma FilterProductsSubsequence(all: seq<Product>, category: string, search: string,
                                  min: Option<int>, max: Option<int>)
    ensures IsSubsequence(FilterProducts(all, category, search, min, max), all)
  {
    var a := FilterByCategory(all, category);
    var b := FilterBySearch(a, search);
    var r := FilterByPrice(b, min, max);
    assert IsSubsequence(a, all) by {
      if category != "" { FilterIsSubsequence(all, (p: Product) => MatchesCategory(p, category)); }
      else { SubsequenceReflexive(all); }
    }
    assert IsSubsequence(b, a) by {
      if search != "" { FilterIsSubsequence(a, (p: Product) => MatchesSearch(p, search)); }
      else { SubsequenceReflexive(a); }
    }
    assert IsSubsequence(r, b) by {
      if PriceFilterOn(min, max) { FilterIsSubsequence(b, (p: Product) => InPriceRange(p, min, max)); }
      else { SubsequenceReflexive(b); }
    }
    SubsequenceTransitive(b, a, all);
    SubsequenceTransitive(r, b, all);
  }

  lemma FilterProductsSound(all: seq<Product>, category: string, search: string,
                            min: Option<int>, max: Option<int>)
    ensures var r := FilterProducts(all, category, search, min, max);
      forall i :: 0 <= i < |r| ==> r[i] in all && Admitted(r[i], category, search, min, max)
  {
    var a := FilterByCategory(all, category);
    var b := FilterBySearch(a, search);
    var r := FilterByPrice(b, min, max);
    forall i | 0 <= i < |r| ensures r[i] in all && Admitted(r[i], category, search, min, max) {
      var x := r[i];
      assert x in b;
      var ib :| 0 <= ib < |b| && b[ib] == x;
      assert x in a;
      var ia :| 0 <= ia < |a| && a[ia] == x;
    }
  }

  lemma FilterProductsComplete(all: seq<Product>, category: string, search: string,
                               min: Option<int>, max: Option<int>)
    ensures var r := FilterProducts(all, category, search, min, max);
      forall i :: 0 <= i < |all| && Admitted(all[i], category, search, min, max) ==> all[i] in r
  {
    var a := FilterByCategory(all, category);
    var b := FilterBySearch(a, search);
    var r := FilterByPrice(b, min, max);
    forall i | 0 <= i < |all| && Admitted(all[i], category, search, min, max) ensures all[i] in r {
      var x := all[i];
      assert x in a;
      var ia :| 0 <= ia < |a| && a[ia] == x;
      assert x in b;
      var ib :| 0 <= ib < |b| && b[ib] == x;
    }
  }

  /** The sort stage returns a permutation of the filtered list, ordered by the key:
      ascending price, descending price, descending rating or ascending name. */
  lemma SortStageSpec(s: seq<Product>, sortBy: string)
    ensures multiset(SortProducts(sortBy, s)) == multiset(s)
    ensures ParseSortKey(sortBy) != Unsorted ==> Sorted(ParseSortKey(sortBy), SortProducts(sortBy, s))
    ensures ParseSortKey(sortBy) == Unsorted ==> SortProducts(sortBy, s) == s
  {
    if ParseSortKey(sortBy) != Unsorted {
      SortBySpec(ParseSortKey(sortBy), s);
    }
  }

  /** Sorting by 'price-low': the first product is never dearer than the last. */
  lemma PriceLowFirstLast(all: seq<Product>, category: string, search: string, min: Option<int>, max: Option<int>)
    ensures var r := FilterAndSort(all, category, search, min, max, "price-low");
      |r| > 0 ==> r[0].price <= r[|r| - 1].price
  {
    SortStageSpec(FilterProducts(all, category, search, min, max), "price-low");
  }

  /** The default key of the sort menu is not one of the four orders. */
  lemma DefaultIsUnsorted()
    ensures ParseSortKey("default") == Unsorted
  {
    assert "default"[0] != "price-low"[0] && "default"[0] != "price-high"[0];
    assert "default"[0] != "rating"[0] && "default"[0] != "name"[0];
  }

  /** With every filter empty and a key that selects no order (such as the default), the
      catalogue comes back unchanged. */
  lemma NoFiltersIsIdentity(all: seq<Product>, sortBy: string)
    requires ParseSortKey(sortBy) == Unsorted
    ensures FilterAndSort(all, "", "", None, None, sortBy) == all
  {
  }

  /** A list all of whose products are admitted passes the three stages unchanged. */
  lemma FilterProductsKeepsAdmitted(s: seq<Product>, category: string, search: string,
                                    min: Option<int>, max: Option<int>)
    requires AllAdmitted(s, category, search, min, max)
    ensures FilterProducts(s, category, search, min, max) == s
  {
    if category != "" { FilterAllPass(s, (p: Product) => MatchesCategory(p, category)); }
    if search != "" { FilterAllPass(s, (p: Product) => MatchesSearch(p, search)); }
    if PriceFilterOn(min, max) { FilterAllPass(s, (p: Product) => InPriceRange(p, min, max)); }
  }

  predicate AllAdmitted(s: seq<Product>, category: string, search: string, min: Option<int>, max: Option<int>)
  {
    forall i :: 0 <= i < |s| ==> Admitted(s[i], category, search, min, max)
  }

  lemma PermutationKeepsAdmitted(f: seq<Product>, r: seq<Product>, category: string, search: string,
                                 min: Option<int>, max: Option<int>)
    requires multiset(r) == multiset(f) && AllAdmitted(f, category, search, min, max)
    ensures AllAdmitted(r, category, search, min, max)
  {
    forall i | 0 <= i < |r| ensures Admitted(r[i], category, search, min, max) {
      assert r[i] in multiset(r);
      assert r[i] in multiset(f);
      var j :| 0 <= j < |f| && f[j] == r[i];
    }
  }

  /** Running the effect on its own output, with the same settings, changes nothing. */
  lemma FilterAndSortIdempotent(all: seq<Product>, category: string, search: string,
                                min: Option<int>, max: Option<int>, sortBy: string)
    ensures var r := FilterAndSort(all, category, search, min, max, sortBy);
      FilterAndSort(r, category, search, min, max, sortBy) == r
  {
    var f := FilterProducts(all, category, search, min, max);
    var r := SortProducts(sortBy, f);
    FilterProductsSpec(all, category, search, min, max);
    assert AllAdmitted(f, category, search, min, max);
    SortStageSpec(f, sortBy);
    PermutationKeepsAdmitted(f, r, category, search, min, max);
    FilterProductsKeepsAdmitted(r, category, search, min, max);
    if ParseSortKey(sortBy) != Unsorted {
      SortBySorted(ParseSortKey(sortBy), r);
    }
  }
}

/** The product list page: its filter inputs, the voice command handler and the two
    "Clear Filters" buttons. The filter effect re-runs when the category, the catalogue,
    the search term or the sort key changes; the price range is not among its triggers. */
module Products {
  import opened Base
  import opened Text
  import opened Entities
  import opened ProductFilter
  import opened Profile
  import Category

  /** `getIntent`: the reply's intent, lower-cased, or "" when it has none or the call fails.
      The reply's price is not used by the page. */
  function IntentCategory(reply: Result<Option<string>, ()>): (r: string)
    ensures ToLower(r) == r
    ensures r != "" ==> reply.Ok? && reply.value.Some? && ToLower(reply.value.value) == r
    ensures reply.Err? || reply.value.None? ==> r == ""
    ensures reply.Ok? && reply.value.Some? ==> r == ToLower(reply.value.value)
  {
    if reply.Ok? && reply.value.Some? then
      ToLowerIdempotent(reply.value.value);
      ToLower(reply.value.value)
    else ""
  }

  /** What the page says for an intent category `c`: the two sentences around the filtering,
      or an apology when there is no category. */
  function IntentReplies(c: string, name: string): (r: seq<string>)
    ensures |r| == (if c != "" then 2 else 1)
  {
    if c != "" then
      ["Hey " + name + ", wait a minute, I am searching the best " + c
       + " products for you while filtering based on your command",
       "Here are the best " + c + " products for you, " + name + "!"]
    else ["Sorry " + name + ", I didn't catch that. Please try again."]
  }

  class ProductsPage {
    var allProducts: seq<Product>
    var filteredProducts: seq<Product>
    var isLoading: bool
    var isListening: bool
    var searchTerm: string
    var sortBy: string
    /** The two price inputs; `None` is the empty input. */
    var priceMin: Option<int>
    var priceMax: Option<int>
    /** The price range the filter effect saw the last time it ran. */
    ghost var appliedMin: Option<int>
    ghost var appliedMax: Option<int>
    const category: Category.CategoryStore

    /** The shown list is the pipeline applied to the current catalogue, category, search
        term and sort key, with the price range as of the effect's last run. */
    ghost predicate Valid()
      reads this, category
    {
      filteredProducts == Applied()
    }

    /** The list the filter effect computes from the inputs it last saw. */
    ghost function Applied(): seq<Product>
      reads this, category
    {
      FilterAndSort(allProducts, category.selectedCategory, searchTerm, appliedMin, appliedMax, sortBy)
    }

    /** The shown list also reflects the price inputs as they are now. */
    ghost predicate Current()
      reads this
    {
      appliedMin == priceMin && appliedMax == priceMax
    }

    constructor (category: Category.CategoryStore)
      ensures Valid() && Current() && this.category == category
      ensures allProducts == [] && filteredProducts == [] && !isLoading && !isListening
      ensures searchTerm == "" && sortBy == "default" && priceMin == None && priceMax == None
    {
      this.category := category;
      allProducts, filteredProducts := [], [];
      isLoading, isListening := false, false;
      searchTerm, sortBy := "", "default";
      priceMin, priceMax := None, None;
      appliedMin, appliedMax := None, None;
    }

    /** One run of the filter effect. */
    method Refresh()
      modifies this`filteredProducts, this`appliedMin, this`appliedMax
      ensures filteredProducts == FilterAndSort(allProducts, category.selectedCategory, searchTerm,
                                                priceMin, priceMax, sortBy)
      ensures Valid() && Current()
      ensures allProducts == old(allProducts) && searchTerm == old(searchTerm) && sortBy == old(sortBy)
      ensures priceMin == old(priceMin) && priceMax == old(priceMax)
      ensures isLoading == old(isLoading) && isListening == old(isListening)
    {
      filteredProducts := FilterAndSort(allProducts, category.selectedCategory, searchTerm,
                                        priceMin, priceMax, sortBy);
      appliedMin, appliedMax := priceMin, priceMax;
    }

    /** The catalogue fetch on mount: `response.data.data || []`; a failed fetch changes
        nothing. The new catalogue triggers the filter effect. */
    method ProductsFetched(reply: Result<Option<seq<Product>>, ()>)
      requires Valid()
      modifies this`allProducts, this`filteredProducts, this`appliedMin, this`appliedMax
      ensures Valid()
      ensures reply.Ok? ==> allProducts == (if reply.value.Some? then reply.value.value else []) && Current()
      ensures reply.Err? ==> allProducts == old(allProducts) && filteredProducts == old(filteredProducts)
      ensures searchTerm == old(searchTerm) && sortBy == old(sortBy)
      ensures priceMin == old(priceMin) && priceMax == old(priceMax)
    {
      if reply.Ok? {
        var data := if reply.value.Some? then reply.value.value else [];
        allProducts := data;
        filteredProducts := data;
        Refresh();
      }
    }

    /** Typing in the search box; the effect re-runs only when the value changes. */
    method SetSearchTerm(t: string)
      requires Valid()
      modifies this`searchTerm, this`filteredProducts, this`appliedMin, this`appliedMax
      ensures searchTerm == t && Valid()
      ensures t != old(searchTerm) ==> Current()
      ensures t == old(searchTerm) ==> filteredProducts == old(filteredProducts)
      ensures allProducts == old(allProducts) && sortBy == old(sortBy)
      ensures priceMin == old(priceMin) && priceMax == old(priceMax)
    {
      if t != searchTerm {
        searchTerm := t;
        Refresh();
      }
    }

    /** Choosing a sort option; the effect re-runs only when the value changes. */
    method SetSortBy(s: string)
      requires Valid()
      modifies this`sortBy, this`filteredProducts, this`appliedMin, this`appliedMax
      ensures sortBy == s && Valid()
      ensures s != old(sortBy) ==> Current()
      ensures s == old(sortBy) ==> filteredProducts == old(filteredProducts)
      ensures allProducts == old(allProducts) && searchTerm == old(searchTerm)
      ensures priceMin == old(priceMin) && priceMax == old(priceMax)
    {
      if s != sortBy {
        sortBy := s;
        Refresh();
      }
    }

    /** Editing the minimum price: the effect does not re-run, so the shown list keeps the
        price range of its last run. */
    method SetPriceMin(v: Option<int>)
      requires Valid()
      modifies this`priceMin
      ensures priceMin == v && priceMax == old(priceMax) && Valid()
      ensures filteredProducts == old(filteredProducts)
      ensures allProducts == old(allProducts) && searchTerm == old(searchTerm) && sortBy == old(sortBy)
    {
      priceMin := v;
    }

    /** Editing the maximum price: as for the minimum, no re-run. */
    method SetPriceMax(v: Option<int>)
      requires Valid()
      modifies this`priceMax
      ensures priceMax == v && priceMin == old(priceMin) && Valid()
      ensures filteredProducts == old(filteredProducts)
      ensures allProducts == old(allProducts) && searchTerm == old(searchTerm) && sortBy == old(sortBy)
    {
      priceMax := v;
    }

    /** The minimum-price edit with the price range among the effect's triggers: the
        shown list always reflects the inputs. */
    method SetPriceMinRefreshing(v: Option<int>)
      requires Valid()
      modifies this`priceMin, this`filteredProducts, this`appliedMin, this`appliedMax
      ensures priceMin == v && priceMax == old(priceMax) && Valid() && Current()
      ensures filteredProducts == FilterAndSort(allProducts, category.selectedCategory, searchTerm,
                                                priceMin, priceMax, sortBy)
      ensures allProducts == old(allProducts) && searchTerm == old(searchTerm) && sortBy == old(sortBy)
    {
      priceMin := v;
      Refresh();
    }

    /** The maximum-price edit with the price range among the effect's triggers. */
    method SetPriceMaxRefreshing(v: Option<int>)
      requires Valid()
      modifies this`priceMax, this`filteredProducts, this`appliedMin, this`appliedMax
      ensures priceMax == v && priceMin == old(priceMin) && Valid() && Current()
      ensures filteredProducts == FilterAndSort(allProducts, category.selectedCategory, searchTerm,
                                                priceMin, priceMax, sortBy)
      ensures allProducts == old(allProducts) && searchTerm == old(searchTerm) && sortBy == old(sortBy)
    {
      priceMax := v;
      Refresh();
    }

    /** A write to the category store seen by the page (the "Showing" chip's clear button,
        the navigation bar's menu): the filter effect re-runs only if the value changed. */
    method SelectCategory(c: string)
      requires Valid()
      modifies this`filteredProducts, this`appliedMin, this`appliedMax, category
      ensures Valid() && category.selectedCategory == c
      ensures c != old(category.selectedCategory) ==> Current()
      ensures c == old(category.selectedCategory) ==> filteredProducts == old(filteredProducts)
    {
      var before := category.selectedCategory;
      category.SetCategory(c);
      if c != before {
        Refresh();
      }
    }

    /** The delayed step of `handleTranscript` for a recognised category: write it to the
        category store (the filter effect re-runs if it changed) and end the loader. */
    method ApplyIntent(c: string)
      requires Valid()
      modifies this`isLoading, this`filteredProducts, this`appliedMin, this`appliedMax, category
      ensures Valid() && !isLoading && category.selectedCategory == c
      ensures c != old(category.selectedCategory) ==> Current()
      ensures c == old(category.selectedCategory) ==> filteredProducts == old(filteredProducts)
    {
      SelectCategory(c);
      isLoading := false;
    }

    /** `handleTranscript(command)` once the intent call has answered with `reply` and the
        loader delay has passed: a recognised category is written to the category store and
        the loader ends; otherwise the loader ends at once. Returns what is spoken. */
    method HandleTranscript(reply: Result<Option<string>, ()>, user: Option<User>) returns (said: seq<string>)
      requires Valid()
      modifies this`isLoading, this`isListening, this`filteredProducts, this`appliedMin, this`appliedMax, category
      ensures Valid() && !isLoading && !isListening
      ensures said == IntentReplies(IntentCategory(reply), DisplayName(user))
      ensures var c := IntentCategory(reply);
        if c != "" then
          category.selectedCategory == c
          && (c != old(category.selectedCategory) ==> Current())
          && (c == old(category.selectedCategory) ==> filteredProducts == old(filteredProducts))
        else
          category.selectedCategory == old(category.selectedCategory)
          && filteredProducts == old(filteredProducts)
    {
      isLoading := true;
      isListening := false;
      var c := IntentCategory(reply);
      if c != "" {
        ApplyIntent(c);
      } else {
        isLoading := false;
      }
      said := IntentReplies(c, DisplayName(user));
    }

    /** The "Clear Filters" button of the filter bar: every input back to its default and
        the category to "". The effect re-runs only if the search term, the sort key or the
        category actually changed; then the whole catalogue is shown in its own order. */
    method ClearFilters()
      requires Valid()
      modifies this`searchTerm, this`sortBy, this`priceMin, this`priceMax, this`filteredProducts, this`appliedMin, this`appliedMax, category
      ensures searchTerm == "" && sortBy == "default" && priceMin == None && priceMax == None
      ensures category.selectedCategory == "" && allProducts == old(allProducts) && Valid()
      ensures old(searchTerm) != "" || old(sortBy) != "default" || old(category.selectedCategory) != "" ==>
                filteredProducts == allProducts && Current()
      ensures old(searchTerm) == "" && old(sortBy) == "default" && old(category.selectedCategory) == "" ==>
                filteredProducts == old(filteredProducts)
    {
      if searchTerm != "" || sortBy != "default" || category.selectedCategory != "" {
        ResetAndRefresh();
      } else {
        ResetUnchanged();
      }
    }

    /** The reset when the effect's inputs change: it re-runs on the cleared inputs. */
    method ResetAndRefresh()
      modifies this`searchTerm, this`sortBy, this`priceMin, this`priceMax, this`filteredProducts, this`appliedMin, this`appliedMax, category
      ensures searchTerm == "" && sortBy == "default" && priceMin == None && priceMax == None
      ensures category.selectedCategory == "" && allProducts == old(allProducts)
      ensures Valid() && Current() && filteredProducts == allProducts
    {
      category.SetCategory("");
      searchTerm, sortBy := "", "default";
      priceMin, priceMax := None, None;
      Refresh();
      DefaultIsUnsorted();
      NoFiltersIsIdentity(allProducts, "default");
    }

    /** The reset when only the price range was set: the effect does not re-run. */
    method ResetUnchanged()
      requires Valid() && searchTerm == "" && sortBy == "default" && category.selectedCategory == ""
      modifies this`priceMin, this`priceMax, category
      ensures searchTerm == "" && sortBy == "default" && priceMin == None && priceMax == None
      ensures category.selectedCategory == "" && allProducts == old(allProducts)
      ensures Valid() && filteredProducts == old(filteredProducts)
    {
      category.SetCategory("");
      priceMin, priceMax := None, None;
    }

    /** The "Clear Filters" button shown when nothing matches: it resets the search term,
        the sort key and the category but not the price range, which still applies. */
    method ClearSearchAndCategory()
      requires Valid()
      modifies this`searchTerm, this`sortBy, this`filteredProducts, this`appliedMin, this`appliedMax, category
      ensures searchTerm == "" && sortBy == "default" && category.selectedCategory == ""
      ensures priceMin == old(priceMin) && priceMax == old(priceMax) && allProducts == old(allProducts) && Valid()
      ensures old(searchTerm) != "" || old(sortBy) != "default" || old(category.selectedCategory) != "" ==>
                filteredProducts == FilterByPrice(allProducts, priceMin, priceMax) && Current()
    ensures old(searchTerm) == "" && old(sortBy) == "default" && old(category.selectedCategory) == "" ==>
              filteredProducts == old(filteredProducts)
    {
      var changed := searchTerm != "" || sortBy != "default" || category.selectedCategory != "";
      searchTerm, sortBy := "", "default";
      category.SetCategory("");
      if changed {
        Refresh();
      }
    }
  }

  /** A product priced 5 stays on the list after the minimum price is set to 10: the list
      the pipeline gives for the new inputs is empty, yet `SetPriceMin` keeps the old one. */
  lemma StalePriceRange(p: Product)
    requires p.price == 5
    ensures FilterAndSort([p], "", "", None, None, "default") == [p]
    ensures FilterAndSort([p], "", "", Some(10), None, "default") == []
  {
    var q := (x: Product) => InPriceRange(x, Some(10), None);
    assert Filter([p], q) == [] + Filter([p][1..], q);
  }
}
