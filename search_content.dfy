/**
 * The query engine of src/app/search/SearchContent.tsx: the predicate of
 * `handleFilterChange` (price bounds and attribute value lists), the sort cases
 * of `handleSortChange`, and the view state `filteredProducts`/`sortOption`.
 */
module SearchContent {
  import opened Wrappers
  import opened CatalogTypes
  import Seqs

  /** A filter entry: a value list, or something else (a number or a string), which constrains nothing. */
  datatype FilterValue = Values(values: seq<string>) | NotAList

  /** The filter object: inclusive price bounds and one entry per attribute name. */
  datatype Filters = Filters(minPrice: int, maxPrice: int, attributes: map<string, FilterValue>)

  /** Line 28: the price fields share the object with the attributes and are skipped by the loop. */
  predicate IsPriceKey(key: string) {
    key == "minPrice" || key == "maxPrice"
  }

  /**
   * The names every plain object inherits from `Object.prototype`. The operator `in`
   * of line 33 follows the prototype chain, so it holds for these on any
   * specifications object; the inherited value is a function or an object, never
   * one of the listed strings.
   */
  const InheritedKeys: set<string> := {
    "constructor", "hasOwnProperty", "isPrototypeOf", "propertyIsEnumerable",
    "toLocaleString", "toString", "valueOf", "__proto__",
    "__defineGetter__", "__defineSetter__", "__lookupGetter__", "__lookupSetter__"
  }

  /** Line 33's `key in product.specifications`: an own key, or one inherited by every object. */
  predicate SpecIn(p: Product, key: string) {
    key in p.specifications || key in InheritedKeys
  }

  /** Lines 31-33: the checks one non-empty value list makes of a product. */
  predicate SatisfiesAttribute(p: Product, key: string, values: seq<string>) {
    && (key == "size" ==> exists v :: v in values && v in p.sizes)
    && (key == "color" ==> exists v :: v in values && v in p.colors)
    && (key in p.specifications ==> p.specifications[key] in values)
    && (key !in p.specifications ==> !SpecIn(p, key))
  }

  /** Lines 27-35 for one key: only a non-empty list constrains the product. */
  predicate KeyAllows(p: Product, f: Filters, key: string)
    requires key in f.attributes
  {
    || IsPriceKey(key)
    || !f.attributes[key].Values?
    || |f.attributes[key].values| == 0
    || SatisfiesAttribute(p, key, f.attributes[key].values)
  }

  predicate InPriceRange(p: Product, f: Filters) {
    f.minPrice <= p.price <= f.maxPrice
  }

  /** The callback given to `products.filter` (lines 22-38). */
  predicate Passes(p: Product, f: Filters) {
    InPriceRange(p, f) && forall key :: key in f.attributes ==> KeyAllows(p, f, key)
  }

  /** Lines 22-38: the products that pass, in the order of the original list. */
  function FilterProducts(products: seq<Product>, f: Filters): seq<Product> {
    Seqs.Filter(products, (p: Product) => Passes(p, f))
  }

  /** The filter callback, with its loop over the filter entries and its early returns. */
  method MatchesFilters(p: Product, f: Filters) returns (ok: bool)
    ensures ok == Passes(p, f)
  {
    if p.price < f.minPrice || p.price > f.maxPrice {
      return false;
    }
    var keys := f.attributes.Keys;
    while keys != {}
      invariant keys <= f.attributes.Keys
      invariant forall key :: key in f.attributes && key !in keys ==> KeyAllows(p, f, key)
      decreases keys
    {
      var key :| key in keys;
      keys := keys - {key};
      if IsPriceKey(key) {
        continue;
      }
      var value := f.attributes[key];
      if value.Values? && |value.values| > 0 {
        if key == "size" && !(exists v :: v in value.values && v in p.sizes) {
          assert !KeyAllows(p, f, key);
          return false;
        }
        if key == "color" && !(exists v :: v in value.values && v in p.colors) {
          assert !KeyAllows(p, f, key);
          return false;
        }
        if SpecIn(p, key) {
          if key !in p.specifications {
            // the inherited value is not a string, so `includes` fails
            assert !KeyAllows(p, f, key);
            return false;
          } else if p.specifications[key] !in value.values {
            assert !KeyAllows(p, f, key);
            return false;
          }
        }
      }
    }
    return true;
  }

  /** `products.filter(...)` with the callback above. */
  method FilterList(products: seq<Product>, f: Filters) returns (filtered: seq<Product>)
    ensures filtered == FilterProducts(products, f)
  {
    filtered := [];
    var i := 0;
    while i < |products|
      invariant 0 <= i <= |products|
      invariant filtered == FilterProducts(products[..i], f)
    {
      assert products[..i + 1][..i] == products[..i];
      var ok := MatchesFilters(products[i], f);
      if ok {
        filtered := filtered + [products[i]];
      }
      i := i + 1;
    }
    assert products[..i] == products;
  }

  /** A product is in the result exactly when it is in the list and passes every constraint. */
  lemma FilterProductsMember(products: seq<Product>, f: Filters, p: Product)
    ensures p in FilterProducts(products, f) <==> p in products && Passes(p, f)
  {
    Seqs.FilterMember(products, (q: Product) => Passes(q, f), p);
  }

  /** The bounds are inclusive and nothing outside them is ever shown. */
  lemma FilterRespectsPriceBounds(products: seq<Product>, f: Filters, p: Product)
    requires p in FilterProducts(products, f)
    ensures f.minPrice <= p.price <= f.maxPrice
  {
    FilterProductsMember(products, f, p);
  }

  /**
   * A specification key constrains only products that have it, except for the names
   * inherited from `Object.prototype`: a product without the key (and the key not
   * "size" or "color") passes that entry whatever its list, unless the key is
   * inherited and the list is non-empty, when the product is rejected.
   */
  lemma MissingSpecificationPasses(p: Product, f: Filters, key: string)
    requires key in f.attributes && key != "size" && key != "color" && key !in p.specifications
    ensures KeyAllows(p, f, key) <==>
      key !in InheritedKeys || !f.attributes[key].Values? || |f.attributes[key].values| == 0
  {
  }

  /**
   * An own specification named like an inherited one shadows it: such a product is
   * tested on its own value, like any other key.
   */
  lemma OwnKeyShadowsInherited(p: Product, values: seq<string>, key: string)
    requires key in p.specifications && key != "size" && key != "color"
    ensures SatisfiesAttribute(p, key, values) <==> p.specifications[key] in values
  {
  }

  /** The result keeps the order of the original list. */
  lemma FilterKeepsOrder(products: seq<Product>, f: Filters) returns (idx: seq<nat>)
    ensures Seqs.Embeds(FilterProducts(products, f), products, idx)
  {
    idx := Seqs.FilterIsSubsequence(products, (p: Product) => Passes(p, f));
  }

  // ---------------------------------------------------------------------------
  // Sorting (lines 47-63)

  datatype SortOrder = PriceAsc | PriceDesc | NameAsc | NameDesc

  /** The `switch (sort)` cases; "featured" and every other option sort nothing. */
  function SortOrderOf(option: string): Option<SortOrder> {
    if option == "price_asc" then Some(PriceAsc)
    else if option == "price_desc" then Some(PriceDesc)
    else if option == "name_asc" then Some(NameAsc)
    else if option == "name_desc" then Some(NameDesc)
    else None
  }

  /** `a.localeCompare(b) <= 0`, with the collation taken as the order of character codes. */
  predicate NameLe(a: string, b: string) {
    if a == [] then true
    else if b == [] then false
    else if a[0] != b[0] then a[0] < b[0]
    else NameLe(a[1..], b[1..])
  }

  lemma {:induction false} NameLeTotal(a: string, b: string)
    ensures NameLe(a, b) || NameLe(b, a)
  {
    if a != [] && b != [] && a[0] == b[0] {
      NameLeTotal(a[1..], b[1..]);
    }
  }

  lemma {:induction false} NameLeTransitive(a: string, b: string, c: string)
    requires NameLe(a, b) && NameLe(b, c)
    ensures NameLe(a, c)
  {
    if a != [] && b != [] && c != [] && a[0] == b[0] && b[0] == c[0] {
      NameLeTransitive(a[1..], b[1..], c[1..]);
    }
  }

  lemma {:induction false} NameLeAntisymmetric(a: string, b: string)
    requires NameLe(a, b) && NameLe(b, a)
    ensures a == b
  {
    if a != [] && b != [] {
      NameLeAntisymmetric(a[1..], b[1..]);
      assert a == [a[0]] + a[1..];
      assert b == [b[0]] + b[1..];
    }
  }

  /** The comparator of each case gives `compare(a, b) <= 0`, so `a` may stay before `b`. */
  predicate InOrder(o: SortOrder, a: Product, b: Product) {
    match o
    case PriceAsc => a.price <= b.price
    case PriceDesc => b.price <= a.price
    case NameAsc => NameLe(a.name, b.name)
    case NameDesc => NameLe(b.name, a.name)
  }

  lemma InOrderTotal(o: SortOrder, a: Product, b: Product)
    ensures InOrder(o, a, b) || InOrder(o, b, a)
  {
    NameLeTotal(a.name, b.name);
  }

  lemma InOrderTransitive(o: SortOrder, a: Product, b: Product, c: Product)
    requires InOrder(o, a, b) && InOrder(o, b, c)
    ensures InOrder(o, a, c)
  {
    match o
    case NameAsc => NameLeTransitive(a.name, b.name, c.name);
    case NameDesc => NameLeTransitive(c.name, b.name, a.name);
    case _ =>
  }

  ghost predicate Sorted(o: SortOrder, s: seq<Product>) {
    forall i, j :: 0 <= i < j < |s| ==> InOrder(o, s[i], s[j])
  }

  /** Inserts `x` after every element it does not precede, so equal keys keep their order. */
  function Insert(o: SortOrder, s: seq<Product>, x: Product): seq<Product> {
    if s == [] then [x]
    else if InOrder(o, s[|s| - 1], x) then s + [x]
    else Insert(o, s[..|s| - 1], x) + [s[|s| - 1]]
  }

  /** `sorted.sort(compare)`: a stable sort of the copy. */
  function SortBy(o: SortOrder, s: seq<Product>): seq<Product> {
    if s == [] then [] else Insert(o, SortBy(o, s[..|s| - 1]), s[|s| - 1])
  }

  lemma SortedAppend(o: SortOrder, s: seq<Product>, y: Product)
    requires Sorted(o, s)
    requires forall i :: 0 <= i < |s| ==> InOrder(o, s[i], y)
    ensures Sorted(o, s + [y])
  {
    var r := s + [y];
    forall i, j | 0 <= i < j < |r|
      ensures InOrder(o, r[i], r[j])
    {
      if j < |s| {
        assert r[i] == s[i] && r[j] == s[j];
      } else {
        assert r[i] == s[i] && r[j] == y;
      }
    }
  }

  lemma {:induction false} InsertMultiset(o: SortOrder, s: seq<Product>, x: Product)
    ensures multiset(Insert(o, s, x)) == multiset(s) + multiset{x}
  {
    if s != [] && !InOrder(o, s[|s| - 1], x) {
      var front := s[..|s| - 1];
      InsertMultiset(o, front, x);
      assert s == front + [s[|s| - 1]];
    }
  }

  lemma {:induction false} InsertSorted(o: SortOrder, s: seq<Product>, x: Product)
    requires Sorted(o, s)
    ensures Sorted(o, Insert(o, s, x))
  {
    if s == [] {
    } else {
      var n := |s|;
      var last := s[n - 1];
      if InOrder(o, last, x) {
        forall i | 0 <= i < n
          ensures InOrder(o, s[i], x)
        {
          if i < n - 1 {
            InOrderTransitive(o, s[i], last, x);
          }
        }
        SortedAppend(o, s, x);
      } else {
        InOrderTotal(o, last, x);
        var front := s[..n - 1];
        assert Sorted(o, front);
        InsertSorted(o, front, x);
        InsertMultiset(o, front, x);
        var ins := Insert(o, front, x);
        forall i | 0 <= i < |ins|
          ensures InOrder(o, ins[i], last)
        {
          assert ins[i] in multiset(ins);
          if ins[i] != x {
            assert ins[i] in multiset(front);
            var k :| 0 <= k < |front| && front[k] == ins[i];
            assert InOrder(o, s[k], s[n - 1]);
          }
        }
        SortedAppend(o, ins, last);
      }
    }
  }

  /** Every case returns a permutation of the previous list, ordered by its key. */
  lemma {:induction false} SortBySorted(o: SortOrder, s: seq<Product>)
    ensures Sorted(o, SortBy(o, s))
    ensures multiset(SortBy(o, s)) == multiset(s)
  {
    if s != [] {
      var front := s[..|s| - 1];
      SortBySorted(o, front);
      InsertSorted(o, SortBy(o, front), s[|s| - 1]);
      InsertMultiset(o, SortBy(o, front), s[|s| - 1]);
      assert s == front + [s[|s| - 1]];
    }
  }

  /** The comparator returns 0 both ways: the two products have the same sort key. */
  predicate Tied(o: SortOrder, a: Product, b: Product) {
    InOrder(o, a, b) && InOrder(o, b, a)
  }

  function TiedWith(o: SortOrder, z: Product): Product -> bool {
    p => Tied(o, p, z)
  }

  lemma {:induction false} NameLeReflexive(a: string)
    ensures NameLe(a, a)
  {
    if a != [] {
      NameLeReflexive(a[1..]);
    }
  }

  /** Ties are exactly equal prices, or equal names, depending on the option. */
  lemma TiedIff(o: SortOrder, a: Product, b: Product)
    ensures Tied(o, a, b) <==> if o.PriceAsc? || o.PriceDesc? then a.price == b.price else a.name == b.name
  {
    NameLeReflexive(a.name);
    if NameLe(a.name, b.name) && NameLe(b.name, a.name) {
      NameLeAntisymmetric(a.name, b.name);
    }
  }

  /** Inserting `x` puts it after every element that has its key. */
  lemma {:induction false} InsertStable(o: SortOrder, s: seq<Product>, x: Product, z: Product)
    ensures Seqs.Filter(Insert(o, s, x), TiedWith(o, z))
      == Seqs.Filter(s, TiedWith(o, z)) + (if Tied(o, x, z) then [x] else [])
  {
    var t := TiedWith(o, z);
    assert t(x) == Tied(o, x, z);
    if s == [] {
      Seqs.FilterSnoc([], x, t);
      assert [] + [x] == [x];
    } else if InOrder(o, s[|s| - 1], x) {
      Seqs.FilterSnoc(s, x, t);
    } else {
      var front, last := s[..|s| - 1], s[|s| - 1];
      InsertStable(o, front, x, z);
      if Tied(o, x, z) && Tied(o, last, z) {
        InOrderTransitive(o, last, z, x);
        assert false;
      }
      assert t(last) == Tied(o, last, z);
      assert front + [last] == s;
      Seqs.FilterSwapLast(Insert(o, front, x), front, x, last, t);
    }
  }

  /** The sort is stable: the products of each key keep their order in the input. */
  lemma {:induction false} SortByStable(o: SortOrder, s: seq<Product>, z: Product)
    ensures Seqs.Filter(SortBy(o, s), TiedWith(o, z)) == Seqs.Filter(s, TiedWith(o, z))
  {
    if s != [] {
      var front := s[..|s| - 1];
      SortByStable(o, front, z);
      InsertStable(o, SortBy(o, front), s[|s| - 1], z);
    }
  }

  /** Lines 47-63: the new `filteredProducts` for a sort option, computed from the previous list. */
  function SortWith(prev: seq<Product>, option: string): seq<Product> {
    match SortOrderOf(option)
    case None => prev
    case Some(o) => SortBy(o, prev)
  }

  /**
   * A known option orders a permutation of the previous list by its key, keeping
   * the previous order among equal keys; "featured" or any other option leaves the
   * previous list as it is.
   */
  lemma SortWithResult(prev: seq<Product>, option: string)
    ensures SortOrderOf(option).Some? ==>
      Sorted(SortOrderOf(option).value, SortWith(prev, option)) && multiset(SortWith(prev, option)) == multiset(prev)
    ensures SortOrderOf(option).Some? ==> forall z ::
      Seqs.Filter(SortWith(prev, option), TiedWith(SortOrderOf(option).value, z))
        == Seqs.Filter(prev, TiedWith(SortOrderOf(option).value, z))
    ensures SortOrderOf(option).None? ==> SortWith(prev, option) == prev
  {
    if SortOrderOf(option).Some? {
      var o := SortOrderOf(option).value;
      SortBySorted(o, prev);
      forall z
        ensures Seqs.Filter(SortWith(prev, option), TiedWith(o, z)) == Seqs.Filter(prev, TiedWith(o, z))
      {
        SortByStable(o, prev, z);
      }
    }
  }

  /** The state of the search view: the list shown and the chosen sort option. */
  class SearchView {
    const products: seq<Product>
    var filteredProducts: seq<Product>
    var sortOption: string

    constructor (products: seq<Product>)
      ensures this.products == products
      ensures filteredProducts == products && sortOption == "featured"
    {
      this.products := products;
      filteredProducts := products;
      sortOption := "featured";
    }

    /** Re-filtering always starts again from the original `products`, whatever the sort option. */
    method HandleFilterChange(f: Filters)
      modifies this
      ensures filteredProducts == FilterProducts(products, f)
      ensures sortOption == old(sortOption)
    {
      filteredProducts := FilterList(products, f);
    }

    /** Sorting works on the list currently shown. */
    method HandleSortChange(option: string)
      modifies this
      ensures sortOption == option
      ensures filteredProducts == SortWith(old(filteredProducts), option)
    {
      sortOption := option;
      filteredProducts := SortWith(filteredProducts, option);
    }
  }
}
