/**
 * The catalog normaliser `parseProductsJson` (src/lib/json-parser.ts).
 * Pass 1 copies the categories with empty product lists and flattens the
 * products in document order; pass 2 recomputes every subcategory's products
 * from the products' own `category`/`subcategory` fields, ignoring case.
 */
module JsonParser {
  import opened CatalogTypes
  import Seqs
  import Text

  /** The value `{ categories, products }` that `parseProductsJson` resolves to. */
  datatype Catalog = Catalog(categories: seq<Category>, products: seq<Product>)

  /** Lines 47-57: a category whose subcategories keep id, name and categoryId and get `products: []`. */
  function FlatCategory(c: Category): Category {
    c.(subcategories := seq(|c.subcategories|, j requires 0 <= j < |c.subcategories| => c.subcategories[j].(products := [])))
  }

  function FlatCategories(raw: seq<Category>): seq<Category> {
    seq(|raw|, i requires 0 <= i < |raw| => FlatCategory(raw[i]))
  }

  function SubcategoryProducts(subs: seq<Subcategory>): seq<Product> {
    if subs == [] then []
    else SubcategoryProducts(subs[..|subs| - 1]) + subs[|subs| - 1].products
  }

  /** Lines 59-75: the nested `flatMap`, categories then subcategories then products. */
  function FlatProducts(raw: seq<Category>): seq<Product> {
    if raw == [] then []
    else FlatProducts(raw[..|raw| - 1]) + SubcategoryProducts(raw[|raw| - 1].subcategories)
  }

  /** Lines 83-85: a product is listed under a subcategory when both names agree ignoring case. */
  predicate BelongsTo(p: Product, categoryName: string, subcategoryName: string) {
    && Text.Lower(p.category) == Text.Lower(categoryName)
    && Text.Lower(p.subcategory) == Text.Lower(subcategoryName)
  }

  /** Line 82: `products.filter(...)` for one subcategory. */
  function Matching(products: seq<Product>, categoryName: string, subcategoryName: string): seq<Product> {
    Seqs.Filter(products, p => BelongsTo(p, categoryName, subcategoryName))
  }

  /** Lines 81-87 for one category. */
  function AssignCategory(c: Category, products: seq<Product>): Category {
    c.(subcategories := seq(|c.subcategories|, j requires 0 <= j < |c.subcategories| =>
      c.subcategories[j].(products := Matching(products, c.name, c.subcategories[j].name))))
  }

  function Assign(categories: seq<Category>, products: seq<Product>): seq<Category> {
    seq(|categories|, i requires 0 <= i < |categories| => AssignCategory(categories[i], products))
  }

  /** What `parseProductsJson` returns; any parse or shape failure gives the empty catalog (lines 91-94). */
  function Parse(doc: CatalogDocument): Catalog {
    match doc
    case Malformed => Catalog([], [])
    case Document(raw) =>
      var products := FlatProducts(raw);
      Catalog(Assign(FlatCategories(raw), products), products)
  }

  /** `parseProductsJson`, with the in-place assignment of lines 80-88 as two nested loops. */
  method ParseProductsJson(doc: CatalogDocument) returns (result: Catalog)
    ensures result == Parse(doc)
  {
    if doc.Malformed? {
      return Catalog([], []);
    }
    var raw := doc.category;
    var categories := FlatCategories(raw);
    var products := FlatProducts(raw);
    var i := 0;
    while i < |categories|
      invariant 0 <= i <= |categories| == |raw|
      invariant forall k :: 0 <= k < i ==> categories[k] == AssignCategory(FlatCategory(raw[k]), products)
      invariant forall k :: i <= k < |categories| ==> categories[k] == FlatCategory(raw[k])
    {
      var category := categories[i];
      var subs := category.subcategories;
      var j := 0;
      while j < |subs|
        invariant 0 <= j <= |subs| == |category.subcategories|
        invariant forall m :: 0 <= m < j ==>
          subs[m] == category.subcategories[m].(products := Matching(products, category.name, category.subcategories[m].name))
        invariant forall m :: j <= m < |subs| ==> subs[m] == category.subcategories[m]
      {
        subs := subs[j := subs[j].(products := Matching(products, category.name, subs[j].name))];
        j := j + 1;
      }
      categories := categories[i := category.(subcategories := subs)];
      i := i + 1;
    }
    result := Catalog(categories, products);
  }

  // ---------------------------------------------------------------------------
  // Properties of the normalised catalog

  /** Categories keep id, name and image; subcategories keep id, name and categoryId, in order. */
  lemma ParseKeepsShape(raw: seq<Category>)
    ensures var r := Parse(Document(raw));
      && |r.categories| == |raw|
      && forall i :: 0 <= i < |raw| ==>
        && r.categories[i].id == raw[i].id
        && r.categories[i].name == raw[i].name
        && r.categories[i].image == raw[i].image
        && |r.categories[i].subcategories| == |raw[i].subcategories|
        && forall j :: 0 <= j < |raw[i].subcategories| ==>
          && r.categories[i].subcategories[j].id == raw[i].subcategories[j].id
          && r.categories[i].subcategories[j].name == raw[i].subcategories[j].name
          && r.categories[i].subcategories[j].categoryId == raw[i].subcategories[j].categoryId
  {
  }

  /** Any parse or shape failure yields no categories and no products. */
  lemma ParseMalformed()
    ensures Parse(Malformed) == Catalog([], [])
  {
  }

  function SubcategoryCount(subs: seq<Subcategory>): nat {
    if subs == [] then 0 else SubcategoryCount(subs[..|subs| - 1]) + |subs[|subs| - 1].products|
  }

  function ProductCount(raw: seq<Category>): nat {
    if raw == [] then 0 else ProductCount(raw[..|raw| - 1]) + SubcategoryCount(raw[|raw| - 1].subcategories)
  }

  lemma {:induction false} SubcategoryProductsCount(subs: seq<Subcategory>)
    ensures |SubcategoryProducts(subs)| == SubcategoryCount(subs)
  {
    if subs != [] {
      SubcategoryProductsCount(subs[..|subs| - 1]);
    }
  }

  /** The flat product list is as long as all raw product lists together. */
  lemma {:induction false} FlatProductsCount(raw: seq<Category>)
    ensures |Parse(Document(raw)).products| == ProductCount(raw)
  {
    if raw != [] {
      FlatProductsCount(raw[..|raw| - 1]);
      SubcategoryProductsCount(raw[|raw| - 1].subcategories);
    }
  }

  lemma {:induction false} SubcategoryProductsMember(subs: seq<Subcategory>, p: Product)
    ensures p in SubcategoryProducts(subs) <==> exists j :: 0 <= j < |subs| && p in subs[j].products
  {
    if subs != [] {
      var front := subs[..|subs| - 1];
      SubcategoryProductsMember(front, p);
      assert forall j :: 0 <= j < |front| ==> front[j] == subs[j];
    }
  }

  /**
   * The flat list holds exactly the products found in some raw subcategory, copied
   * whole: in particular `category` and `subcategory` are the product's own fields,
   * not its position in the document.
   */
  lemma {:induction false} FlatProductsMember(raw: seq<Category>, p: Product)
    ensures p in Parse(Document(raw)).products <==>
      exists i, j :: 0 <= i < |raw| && 0 <= j < |raw[i].subcategories| && p in raw[i].subcategories[j].products
  {
    if raw != [] {
      var front := raw[..|raw| - 1];
      FlatProductsMember(front, p);
      SubcategoryProductsMember(raw[|raw| - 1].subcategories, p);
      assert forall i :: 0 <= i < |front| ==> front[i] == raw[i];
    }
  }

  /** Document order: the products of a later subcategory follow those of an earlier one. */
  lemma {:induction false} FlatProductsAppend(raw: seq<Category>, c: Category)
    ensures FlatProducts(raw + [c]) == FlatProducts(raw) + SubcategoryProducts(c.subcategories)
  {
    assert (raw + [c])[..|raw + [c]| - 1] == raw;
  }

  lemma {:induction false} SubcategoryProductsConcat(a: seq<Subcategory>, b: seq<Subcategory>)
    ensures SubcategoryProducts(a + b) == SubcategoryProducts(a) + SubcategoryProducts(b)
  {
    if b == [] {
      assert a + b == a;
    } else {
      var b' := b[..|b| - 1];
      assert (a + b)[..|a + b| - 1] == a + b';
      SubcategoryProductsConcat(a, b');
    }
  }

  lemma {:induction false} FlatProductsConcat(a: seq<Category>, b: seq<Category>)
    ensures FlatProducts(a + b) == FlatProducts(a) + FlatProducts(b)
  {
    if b == [] {
      assert a + b == a;
    } else {
      var b' := b[..|b| - 1];
      assert (a + b)[..|a + b| - 1] == a + b';
      FlatProductsConcat(a, b');
    }
  }

  /**
   * After parsing, a subcategory lists exactly the flat products whose category and
   * subcategory match the owning names ignoring case, in flat-list order.
   */
  lemma SubcategoryListsMatches(raw: seq<Category>, i: nat, j: nat, p: Product)
    requires i < |raw| && j < |raw[i].subcategories|
    ensures var r := Parse(Document(raw));
      && r.categories[i].subcategories[j].products == Matching(r.products, raw[i].name, raw[i].subcategories[j].name)
      && (p in r.categories[i].subcategories[j].products <==>
          p in r.products && BelongsTo(p, raw[i].name, raw[i].subcategories[j].name))
  {
    var r := Parse(Document(raw));
    Seqs.FilterMember(r.products, q => BelongsTo(q, raw[i].name, raw[i].subcategories[j].name), p);
  }

  /** A product whose fields match no category/subcategory pair stays in the flat list but is listed nowhere. */
  lemma OrphanListedNowhere(raw: seq<Category>, p: Product)
    requires p in Parse(Document(raw)).products
    requires forall i, j :: 0 <= i < |raw| && 0 <= j < |raw[i].subcategories| ==>
      !BelongsTo(p, raw[i].name, raw[i].subcategories[j].name)
    ensures forall i, j :: 0 <= i < |raw| && 0 <= j < |raw[i].subcategories| ==>
      p !in Parse(Document(raw)).categories[i].subcategories[j].products
  {
    forall i, j | 0 <= i < |raw| && 0 <= j < |raw[i].subcategories|
      ensures p !in Parse(Document(raw)).categories[i].subcategories[j].products
    {
      SubcategoryListsMatches(raw, i, j, p);
    }
  }

  /** Every product listed under a subcategory of a parsed catalog matches that subcategory's names. */
  lemma ListedProductsBelong(doc: CatalogDocument)
    ensures var r := Parse(doc);
      forall i, j, k ::
        0 <= i < |r.categories| && 0 <= j < |r.categories[i].subcategories| &&
        0 <= k < |r.categories[i].subcategories[j].products| ==>
        BelongsTo(r.categories[i].subcategories[j].products[k], r.categories[i].name, r.categories[i].subcategories[j].name)
  {
  }
}
