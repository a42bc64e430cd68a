/**
 * The static lookups of src/lib/products.ts over the bundled data file
 * `{ products, categories }`.
 */
module ProductsLib {
  import opened Wrappers
  import opened CatalogTypes
  import Seqs

  datatype ProductsData = ProductsData(products: seq<Product>, categories: seq<Category>)

  /** `getProducts`: the whole product list, unchanged. */
  function GetProducts(data: ProductsData): seq<Product> {
    data.products
  }

  /** `getCategories`: the category list, unchanged. */
  function GetCategories(data: ProductsData): seq<Category> {
    data.categories
  }

  /** `getProductById`: the first product with that id, or none. */
  function GetProductById(data: ProductsData, id: string): (r: Option<Product>)
    ensures r.Some? ==> r.value in data.products && r.value.id == id
    ensures r.Some? ==>
      exists k :: 0 <= k < |data.products| && data.products[k] == r.value &&
        forall j :: 0 <= j < k ==> data.products[j].id != id
    ensures r.None? <==> forall p :: p in data.products ==> p.id != id
  {
    match Seqs.FirstIndex(data.products, (p: Product) => p.id == id)
    case None => None
    case Some(k) => Some(data.products[k])
  }

  /** `getProductsByCategory`: the products whose `category` equals the argument, in order. */
  function GetProductsByCategory(data: ProductsData, category: string): seq<Product> {
    Seqs.Filter(data.products, (p: Product) => p.category == category)
  }

  lemma GetProductsByCategoryExact(data: ProductsData, category: string, p: Product)
    ensures p in GetProductsByCategory(data, category) <==> p in data.products && p.category == category
  {
    Seqs.FilterMember(data.products, (q: Product) => q.category == category, p);
  }

  lemma GetProductsByCategoryOrder(data: ProductsData, category: string) returns (idx: seq<nat>)
    ensures Seqs.Embeds(GetProductsByCategory(data, category), data.products, idx)
  {
    idx := Seqs.FilterIsSubsequence(data.products, (p: Product) => p.category == category);
  }

  /**
   * The lookups read the list `getProducts` returns: a product found by id is in it,
   * an id that some listed product has is always found, and a category's products
   * are a subsequence of it.
   */
  lemma LookupsWithinProducts(data: ProductsData, id: string, category: string) returns (idx: seq<nat>)
    ensures GetProductById(data, id).Some? ==> GetProductById(data, id).value in GetProducts(data)
    ensures (exists p :: p in GetProducts(data) && p.id == id) ==> GetProductById(data, id).Some?
    ensures Seqs.Embeds(GetProductsByCategory(data, category), GetProducts(data), idx)
  {
    idx := GetProductsByCategoryOrder(data, category);
  }
}
