/**
 * The server side of the search page, src/app/search/page.tsx: the products whose
 * name or description contains the query, and the distinct subcategories they
 * belong to.
 */
module SearchPage {
  import opened Wrappers
  import opened CatalogTypes
  import Seqs
  import Text
  import JsonParser

  /** Lines 13-15: case-insensitive substring match on the name or the description. */
  predicate MatchesQuery(p: Product, query: string) {
    || Text.Contains(Text.Lower(p.name), Text.Lower(query))
    || Text.Contains(Text.Lower(p.description), Text.Lower(query))
  }

  function SearchResults(products: seq<Product>, query: string): seq<Product> {
    Seqs.Filter(products, (p: Product) => MatchesQuery(p, query))
  }

  /** `ci` is the position of the first category named `name`. */
  predicate FirstCategory(categories: seq<Category>, name: string, ci: nat) {
    ci < |categories| && categories[ci].name == name
    && forall i :: 0 <= i < ci ==> categories[i].name != name
  }

  predicate HasSubcategory(c: Category, name: string) {
    exists j :: 0 <= j < |c.subcategories| && c.subcategories[j].name == name
  }

  /**
   * Lines 20-22: the first category with the product's category name, then the
   * first of its subcategories with the product's subcategory name, as a pair of
   * indices (which identifies the subcategory object the source adds to its Set).
   */
  function Locate(categories: seq<Category>, p: Product): (r: Option<(nat, nat)>)
    ensures r.Some? ==>
      && FirstCategory(categories, p.category, r.value.0)
      && r.value.1 < |categories[r.value.0].subcategories|
      && categories[r.value.0].subcategories[r.value.1].name == p.subcategory
      && forall j :: 0 <= j < r.value.1 ==> categories[r.value.0].subcategories[j].name != p.subcategory
    ensures forall ci: nat :: FirstCategory(categories, p.category, ci) ==>
      (r.Some? <==> HasSubcategory(categories[ci], p.subcategory))
    ensures (forall c :: c in categories ==> c.name != p.category) ==> r.None?
  {
    match Seqs.FirstIndex(categories, (c: Category) => c.name == p.category)
    case None => None
    case Some(ci) =>
      match Seqs.FirstIndex(categories[ci].subcategories, (s: Subcategory) => s.name == p.subcategory)
      case None => None
      case Some(si) => Some((ci, si))
  }

  /** The pairs in the order the Set of lines 18-27 first receives them. */
  function Related(categories: seq<Category>, results: seq<Product>): (r: seq<(nat, nat)>)
    ensures forall k :: 0 <= k < |r| ==>
      r[k].0 < |categories| && r[k].1 < |categories[r[k].0].subcategories|
  {
    if results == [] then []
    else
      var prev := Related(categories, results[..|results| - 1]);
      match Locate(categories, results[|results| - 1])
      case None => prev
      case Some(k) => if k in prev then prev else prev + [k]
  }

  /** `Array.from(subcategories)` */
  function Subcategories(categories: seq<Category>, results: seq<Product>): seq<Subcategory> {
    var rel := Related(categories, results);
    seq(|rel|, i requires 0 <= i < |rel| => categories[rel[i].0].subcategories[rel[i].1])
  }

  /** `getSearchResults` on the parsed contents of the catalog file. */
  method GetSearchResults(doc: CatalogDocument, query: string)
    returns (products: seq<Product>, subcategories: seq<Subcategory>)
    ensures products == SearchResults(JsonParser.Parse(doc).products, query)
    ensures subcategories == Subcategories(JsonParser.Parse(doc).categories, products)
  {
    var catalog := JsonParser.ParseProductsJson(doc);
    products := SearchResults(catalog.products, query);
    var categories := catalog.categories;
    var seen: seq<(nat, nat)> := [];
    for i := 0 to |products|
      invariant seen == Related(categories, products[..i])
    {
      assert products[..i + 1][..i] == products[..i];
      var product := products[i];
      var ci := Seqs.FirstIndex(categories, (c: Category) => c.name == product.category);
      if ci.Some? {
        var si := Seqs.FirstIndex(categories[ci.value].subcategories, (s: Subcategory) => s.name == product.subcategory);
        if si.Some? && (ci.value, si.value) !in seen {
          seen := seen + [(ci.value, si.value)];
        }
      }
    }
    assert products[..|products|] == products;
    subcategories := seq(|seen|, k requires 0 <= k < |seen| => categories[seen[k].0].subcategories[seen[k].1]);
  }

  /** A product is a result exactly when it is in the catalog and matches the query. */
  lemma SearchResultsMember(products: seq<Product>, query: string, p: Product)
    ensures p in SearchResults(products, query) <==> p in products && MatchesQuery(p, query)
  {
    Seqs.FilterMember(products, (q: Product) => MatchesQuery(q, query), p);
  }

  /** The empty query lists the whole catalog, in order. */
  lemma EmptyQueryListsAll(products: seq<Product>)
    ensures SearchResults(products, "") == products
  {
    forall p | p in products
      ensures MatchesQuery(p, "")
    {
      assert Text.Lower("") == "";
      Text.ContainsEmpty(Text.Lower(p.name));
    }
    Seqs.FilterKeepsAll(products, (p: Product) => MatchesQuery(p, ""));
  }

  /** Lower-casing is idempotent. */
  lemma LowerIdempotent(s: string)
    ensures Text.Lower(Text.Lower(s)) == Text.Lower(s)
  {
  }

  /** The query's letter case does not matter. */
  lemma QueryCaseInsensitive(products: seq<Product>, query: string)
    ensures SearchResults(products, Text.Lower(query)) == SearchResults(products, query)
  {
    LowerIdempotent(query);
    Seqs.FilterCongruent(products, (p: Product) => MatchesQuery(p, Text.Lower(query)), (p: Product) => MatchesQuery(p, query));
  }

  /** No subcategory is listed twice. */
  lemma {:induction false} RelatedDistinct(categories: seq<Category>, results: seq<Product>)
    ensures Seqs.Distinct(Related(categories, results))
  {
    if results != [] {
      var prev := Related(categories, results[..|results| - 1]);
      RelatedDistinct(categories, results[..|results| - 1]);
      match Locate(categories, results[|results| - 1])
      case None =>
        assert Related(categories, results) == prev;
      case Some(k) =>
        if k !in prev {
          assert forall i :: 0 <= i < |prev| ==> prev[i] != k;
        }
    }
  }

  /** A subcategory is listed exactly when some result locates it. */
  lemma {:induction false} RelatedMember(categories: seq<Category>, results: seq<Product>, k: (nat, nat))
    ensures k in Related(categories, results) <==> exists p :: p in results && Locate(categories, p) == Some(k)
  {
    if results != [] {
      var front, last := results[..|results| - 1], results[|results| - 1];
      RelatedMember(categories, front, k);
      assert results == front + [last];
      assert forall p :: p in results <==> p in front || p == last;
      assert k in Related(categories, results) <==> k in Related(categories, front) || Locate(categories, last) == Some(k);
    }
  }
}
