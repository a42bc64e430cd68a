/**
 * The filter panel of src/components/ProductFilters.tsx: the attribute-value
 * index built from the products, the rounded price ceiling, the initial
 * filters, the price inputs and the checkbox toggle.
 */
module ProductFilters {
  import opened CatalogTypes
  import Seqs
  import Text
  import SC = SearchContent

  // ---------------------------------------------------------------------------
  // The attribute index (lines 24-38)

  /** The attribute names one product puts in the index. */
  predicate ProductHasKey(p: Product, key: string) {
    || (key == "size" && |p.sizes| > 0)
    || (key == "color" && |p.colors| > 0)
    || key in p.specifications
  }

  /** The elements of a list of strings, as a set. */
  function Elements(s: seq<string>): set<string> {
    set x | x in s
  }

  /** The values one product adds to the set of `key`. */
  function ProductValues(p: Product, key: string): set<string> {
    (if key == "size" then Elements(p.sizes) else {})
    + (if key == "color" then Elements(p.colors) else {})
    + (if key in p.specifications then {p.specifications[key]} else {})
  }

  predicate HasAttribute(products: seq<Product>, key: string) {
    products != [] && (HasAttribute(products[..|products| - 1], key) || ProductHasKey(products[|products| - 1], key))
  }

  function AttributeValues(products: seq<Product>, key: string): set<string> {
    if products == [] then {}
    else AttributeValues(products[..|products| - 1], key) + ProductValues(products[|products| - 1], key)
  }

  /** The set stored under `key`, empty when there is none. */
  function Get(attributes: map<string, set<string>>, key: string): set<string> {
    if key in attributes then attributes[key] else {}
  }

  /**
   * Lines 26-33 for one list: create the set of `key` when missing, then add every
   * value of the list to it.
   */
  method AddAll(attributes: map<string, set<string>>, key: string, values: seq<string>)
    returns (r: map<string, set<string>>)
    ensures r == attributes[key := Get(attributes, key) + Elements(values)]
  {
    var acc: set<string> := Get(attributes, key);
    for j := 0 to |values|
      invariant acc == Get(attributes, key) + Elements(values[..j])
    {
      assert values[..j + 1] == values[..j] + [values[j]];
      acc := acc + {values[j]};
    }
    assert values[..|values|] == values;
    r := attributes[key := acc];
  }

  /** Lines 34-37: every specification entry adds its value under its key. */
  method AddSpecifications(attributes: map<string, set<string>>, specifications: map<string, string>)
    returns (r: map<string, set<string>>)
    ensures forall key :: key in r <==> key in attributes || key in specifications
    ensures forall key ::
      Get(r, key) == Get(attributes, key) + (if key in specifications then {specifications[key]} else {})
  {
    r := attributes;
    var keys := specifications.Keys;
    while keys != {}
      invariant keys <= specifications.Keys
      invariant forall key :: key in r <==> key in attributes || (key in specifications && key !in keys)
      invariant forall key ::
        Get(r, key) == Get(attributes, key)
          + (if key in specifications && key !in keys then {specifications[key]} else {})
      decreases keys
    {
      var key :| key in keys;
      keys := keys - {key};
      r := r[key := Get(r, key) + {specifications[key]}];
    }
  }

  /** Names no product puts in the index have no values. */
  lemma {:induction false} AbsentAttributeEmpty(products: seq<Product>, key: string)
    requires !HasAttribute(products, key)
    ensures AttributeValues(products, key) == {}
  {
    if products != [] {
      AbsentAttributeEmpty(products[..|products| - 1], key);
      assert Elements(products[|products| - 1].sizes) == {} <== key == "size";
      assert Elements(products[|products| - 1].colors) == {} <== key == "color";
    }
  }

  /** Lines 26-33: the sizes and the colors of one product, each added only when the list is non-empty. */
  function WithSizesAndColors(attributes: map<string, set<string>>, p: Product): map<string, set<string>> {
    var m := if |p.sizes| > 0 then attributes["size" := Get(attributes, "size") + Elements(p.sizes)] else attributes;
    if |p.colors| > 0 then m["color" := Get(m, "color") + Elements(p.colors)] else m
  }

  lemma SizesAndColorsAt(attributes: map<string, set<string>>, p: Product, key: string)
    ensures var m := WithSizesAndColors(attributes, p);
      && (key in m <==> key in attributes || (key == "size" && |p.sizes| > 0) || (key == "color" && |p.colors| > 0))
      && Get(m, key) == Get(attributes, key)
           + (if key == "size" then Elements(p.sizes) else {})
           + (if key == "color" then Elements(p.colors) else {})
  {
    assert |p.sizes| == 0 ==> Elements(p.sizes) == {};
    assert |p.colors| == 0 ==> Elements(p.colors) == {};
  }

  /** One iteration of the `products.forEach` of lines 25-38. */
  method AddProduct(attributes: map<string, set<string>>, p: Product) returns (r: map<string, set<string>>)
    ensures forall key :: key in r <==> key in attributes || ProductHasKey(p, key)
    ensures forall key :: Get(r, key) == Get(attributes, key) + ProductValues(p, key)
  {
    var afterSizes := attributes;
    if |p.sizes| > 0 {
      afterSizes := AddAll(attributes, "size", p.sizes);
    }
    var afterColors := afterSizes;
    if |p.colors| > 0 {
      afterColors := AddAll(afterSizes, "color", p.colors);
    }
    assert afterColors == WithSizesAndColors(attributes, p);
    r := AddSpecifications(afterColors, p.specifications);
    forall key
      ensures key in r <==> key in attributes || ProductHasKey(p, key)
      ensures Get(r, key) == Get(attributes, key) + ProductValues(p, key)
    {
      SizesAndColorsAt(attributes, p, key);
      ProductStepAt(Get(attributes, key), Get(afterColors, key), Get(r, key), p, key);
    }
  }

  lemma ProductStepAt(before: set<string>, mid: set<string>, after: set<string>, p: Product, key: string)
    requires mid == before + (if key == "size" then Elements(p.sizes) else {}) + (if key == "color" then Elements(p.colors) else {})
    requires after == mid + (if key in p.specifications then {p.specifications[key]} else {})
    ensures after == before + ProductValues(p, key)
  {
  }

  /** The attribute map of lines 24-38. */
  method BuildAttributes(products: seq<Product>) returns (attributes: map<string, set<string>>)
    ensures forall key :: key in attributes <==> HasAttribute(products, key)
    ensures forall key :: key in attributes ==> attributes[key] == AttributeValues(products, key)
  {
    attributes := map[];
    var i := 0;
    while i < |products|
      invariant 0 <= i <= |products|
      invariant forall key :: key in attributes <==> HasAttribute(products[..i], key)
      invariant forall key :: Get(attributes, key) == AttributeValues(products[..i], key)
    {
      assert products[..i + 1][..i] == products[..i];
      attributes := AddProduct(attributes, products[i]);
      i := i + 1;
    }
    assert products[..i] == products;
  }

  /** A name is an attribute exactly when some product puts it in the index. */
  lemma {:induction false} HasAttributeIff(products: seq<Product>, key: string)
    ensures HasAttribute(products, key) <==> exists p :: p in products && ProductHasKey(p, key)
  {
    if products != [] {
      var front := products[..|products| - 1];
      HasAttributeIff(front, key);
      assert products == front + [products[|products| - 1]];
    }
  }

  /**
   * The set of an attribute is the union over all products: all sizes for "size",
   * all colors for "color", and each product's value for a specification key.
   */
  lemma {:induction false} AttributeValuesIff(products: seq<Product>, key: string, v: string)
    ensures v in AttributeValues(products, key) <==> exists p :: p in products && v in ProductValues(p, key)
  {
    if products != [] {
      var front := products[..|products| - 1];
      AttributeValuesIff(front, key, v);
      assert products == front + [products[|products| - 1]];
    }
  }

  // ---------------------------------------------------------------------------
  // Price ceiling and initial filters (lines 22, 45-51)

  /** `Math.max(...products.map((p) => p.price))` */
  function MaxPrice(products: seq<Product>): (m: int)
    requires |products| > 0
    ensures forall p :: p in products ==> p.price <= m
    ensures exists p :: p in products && p.price == m
  {
    if |products| == 1 then products[0].price
    else
      var front := products[..|products| - 1];
      var m := MaxPrice(front);
      assert forall p :: p in front ==> p in products;
      if products[|products| - 1].price > m then products[|products| - 1].price else m
  }

  /** `Math.ceil(x / 100)` for an integer `x`. */
  function CeilHundredths(x: int): int {
    -((-x) / 100)
  }

  /** `Math.ceil(max / 100) * 100`: the smallest multiple of 100 that no price exceeds. */
  function MaxCategoryPrice(products: seq<Product>): (r: int)
    requires |products| > 0
    ensures r % 100 == 0
    ensures forall p :: p in products ==> p.price <= r
    ensures exists p :: p in products && r - 100 < p.price
  {
    CeilHundredths(MaxPrice(products)) * 100
  }

  /** No smaller multiple of 100 bounds every price. */
  lemma MaxCategoryPriceLeast(products: seq<Product>, m: int)
    requires |products| > 0
    requires m % 100 == 0 && forall p :: p in products ==> p.price <= m
    ensures MaxCategoryPrice(products) <= m
  {
    var r := MaxCategoryPrice(products);
    var p :| p in products && r - 100 < p.price;
    assert r - 100 < m;
    assert (r - m) % 100 == 0;
  }

  /** Lines 45-49: bounds 0 and the price ceiling, and an empty list for every attribute. */
  function InitialFilters(products: seq<Product>, attributes: map<string, set<string>>): SC.Filters
    requires |products| > 0
  {
    SC.Filters(0, MaxCategoryPrice(products), map key | key in attributes :: SC.Values([]))
  }

  /** Under the initial filters every product with a non-negative price is shown. */
  lemma InitialFiltersAdmitAll(products: seq<Product>, attributes: map<string, set<string>>, p: Product)
    requires |products| > 0 && p in products && p.price >= 0
    ensures SC.Passes(p, InitialFilters(products, attributes))
  {
  }

  // ---------------------------------------------------------------------------
  // Filter updates (lines 60-91)

  /** Lines 81-84: remove every occurrence of a present value, append an absent one. */
  function Toggle(values: seq<string>, v: string): seq<string> {
    if v in values then Seqs.Filter(values, (x: string) => x != v) else values + [v]
  }

  lemma ToggleMember(values: seq<string>, v: string, w: string)
    ensures w in Toggle(values, v) <==> if w == v then v !in values else w in values
  {
    if v in values {
      Seqs.FilterMember(values, (x: string) => x != v, w);
    }
  }

  /** Checking and unchecking an unchecked value restores the list. */
  lemma ToggleTwiceRestores(values: seq<string>, v: string)
    requires v !in values
    ensures Toggle(Toggle(values, v), v) == values
  {
    var keep := (x: string) => x != v;
    assert v in values + [v];
    Seqs.FilterAppend(values, [v], keep);
    Seqs.FilterKeepsAll(values, keep);
    assert Seqs.Filter([v], keep) == [];
  }

  datatype PriceBound = Min | Max

  /** The panel's state: the filters it will apply and the range shown by the inputs and the slider. */
  class FilterPanel {
    const attributes: map<string, set<string>>
    const maxCategoryPrice: int
    var filters: SC.Filters
    var priceRange: (int, int)

    /** The bounds in `filters` always equal the displayed range, and every attribute entry is a list. */
    ghost predicate Valid()
      reads this
    {
      && filters.minPrice == priceRange.0
      && filters.maxPrice == priceRange.1
      && filters.attributes.Keys == attributes.Keys
      && forall key :: key in filters.attributes ==> filters.attributes[key].Values?
    }

    constructor (products: seq<Product>)
      requires |products| > 0
      ensures Valid()
      ensures forall key :: key in attributes <==> HasAttribute(products, key)
      ensures forall key :: key in attributes ==> attributes[key] == AttributeValues(products, key)
      ensures maxCategoryPrice == MaxCategoryPrice(products)
      ensures filters == InitialFilters(products, attributes)
      ensures priceRange == (0, maxCategoryPrice)
    {
      var built := BuildAttributes(products);
      attributes := built;
      maxCategoryPrice := MaxCategoryPrice(products);
      filters := InitialFilters(products, built);
      priceRange := (0, MaxCategoryPrice(products));
    }

    /** Lines 69-78: one bound changes; text that does not parse becomes 0. */
    method HandleInputChange(bound: PriceBound, value: string)
      requires Valid()
      modifies this
      ensures Valid()
      ensures var n := Text.ParseIntOrZero(value);
        priceRange == (if bound == Min then (n, old(priceRange.1)) else (old(priceRange.0), n))
      ensures filters.attributes == old(filters.attributes)
    {
      var n := Text.ParseIntOrZero(value);
      var newRange := if bound == Min then (n, priceRange.1) else (priceRange.0, n);
      priceRange := newRange;
      filters := filters.(minPrice := newRange.0, maxPrice := newRange.1);
    }

    /** Lines 60-67: the slider sets both bounds. */
    method HandleSliderChange(low: int, high: int)
      requires Valid()
      modifies this
      ensures Valid()
      ensures priceRange == (low, high)
      ensures filters.attributes == old(filters.attributes)
    {
      priceRange := (low, high);
      filters := filters.(minPrice := low, maxPrice := high);
    }

    /** Lines 80-91: the checkbox toggles one value of one attribute and nothing else. */
    method HandleAttributeChange(attribute: string, value: string)
      requires Valid() && attribute in attributes
      modifies this
      ensures Valid()
      ensures filters == old(filters).(attributes := old(filters.attributes)[attribute :=
        SC.Values(Toggle(old(filters.attributes[attribute].values), value))])
      ensures priceRange == old(priceRange)
    {
      var current := filters.attributes[attribute].values;
      filters := filters.(attributes := filters.attributes[attribute := SC.Values(Toggle(current, value))]);
    }

    /** `applyFilters`: what is handed to the search view. */
    method ApplyFilters() returns (f: SC.Filters)
      ensures f == filters
    {
      f := filters;
    }
  }
}
