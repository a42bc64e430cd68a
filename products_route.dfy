/**
 * The product handlers of src/app/api/products/route.ts. They work on the raw
 * document (not the normalised catalog): POST appends to the first subcategory
 * whose names match exactly, PUT and DELETE edit the first product with the id in
 * every subcategory, and a write happens only on success.
 */
module ProductsRoute {
  import opened Wrappers
  import opened CatalogTypes
  import Seqs
  import JsonParser
  import opened CatalogFiles

  /** Lines 18-26: the flat product list, or a server error when the file cannot be read. */
  method Get(file: CatalogFile) returns (r: Option<seq<Product>>)
    ensures file.readable ==> r == Some(JsonParser.Parse(file.content).products)
    ensures !file.readable ==> r.None?
  {
    if !file.readable {
      return None;
    }
    var catalog := JsonParser.ParseProductsJson(file.content);
    r := Some(catalog.products);
  }

  // ---------------------------------------------------------------------------
  // POST (lines 28-53)

  /** Line 45: `subcategory.products.push(newProduct)` on the raw document. */
  function Append(raw: seq<Category>, ci: nat, si: nat, p: Product): seq<Category>
    requires ci < |raw| && si < |raw[ci].subcategories|
  {
    var c := raw[ci];
    var s := c.subcategories[si];
    raw[ci := c.(subcategories := c.subcategories[si := s.(products := s.products + [p])])]
  }

  /** Lines 34-45: exact-name lookups of the category and the subcategory, then the append. */
  function PostOutcome(raw: seq<Category>, p: Product): Outcome {
    match Seqs.FirstIndex(raw, (c: Category) => c.name == p.category)
    case None => Outcome(CategoryNotFound, None)
    case Some(ci) =>
      match Seqs.FirstIndex(raw[ci].subcategories, (s: Subcategory) => s.name == p.subcategory)
      case None => Outcome(SubcategoryNotFound, None)
      case Some(si) => Outcome(Success, Some(Append(raw, ci, si, p)))
  }

  method Post(file: CatalogFile, newProduct: Product, writeSucceeds: bool) returns (r: Response)
    modifies file
    ensures file.readable == old(file.readable)
    ensures old(file.readable) && old(file.content).Document? ==>
      Committed(PostOutcome(old(file.content).category, newProduct), writeSucceeds, old(file.content), file.content, r)
    ensures !old(file.readable) || old(file.content).Malformed? ==>
      r == ServerError && file.content == old(file.content)
  {
    if !file.readable || file.content.Malformed? {
      return ServerError;
    }
    var raw := file.content.category;
    var ci := Seqs.FirstIndex(raw, (c: Category) => c.name == newProduct.category);
    if ci.None? {
      return CategoryNotFound;
    }
    var si := Seqs.FirstIndex(raw[ci.value].subcategories, (s: Subcategory) => s.name == newProduct.subcategory);
    if si.None? {
      return SubcategoryNotFound;
    }
    r := file.Commit(Outcome(Success, Some(Append(raw, ci.value, si.value, newProduct))), writeSucceeds);
  }

  /** The errors of POST: no category with the name, or none of its subcategories with the name. */
  lemma PostResponses(raw: seq<Category>, p: Product)
    ensures var out := PostOutcome(raw, p);
      && (out.write.Some? <==> out.response == Success)
      && (out.response == CategoryNotFound <==> forall c :: c in raw ==> c.name != p.category)
      && (out.response == SubcategoryNotFound ==>
            exists c :: c in raw && c.name == p.category && forall s :: s in c.subcategories ==> s.name != p.subcategory)
  {
    var out := PostOutcome(raw, p);
    match Seqs.FirstIndex(raw, (c: Category) => c.name == p.category)
    case None =>
    case Some(ci) =>
      assert raw[ci] in raw;
  }

  /** Position `ci` holds the first category named `name` (the `find` of line 34). */
  predicate FirstNamed(raw: seq<Category>, name: string, ci: nat) {
    ci < |raw| && raw[ci].name == name && forall j :: 0 <= j < ci ==> raw[j].name != name
  }

  /**
   * Once the first category with the product's name is found, POST answers
   * "Subcategory not found" without a write exactly when that category has no
   * subcategory of the name; otherwise it appends to the first such subcategory.
   */
  lemma PostAtFirstCategory(raw: seq<Category>, p: Product, ci: nat)
    requires FirstNamed(raw, p.category, ci)
    ensures var out := PostOutcome(raw, p);
      && (out.response == SubcategoryNotFound <==> forall s :: s in raw[ci].subcategories ==> s.name != p.subcategory)
      && (out.response == SubcategoryNotFound ==> out.write.None?)
      && (out.response == Success <==> exists s :: s in raw[ci].subcategories && s.name == p.subcategory)
      && (out.response == Success ==>
            exists si :: 0 <= si < |raw[ci].subcategories| && raw[ci].subcategories[si].name == p.subcategory
              && (forall j :: 0 <= j < si ==> raw[ci].subcategories[j].name != p.subcategory)
              && out.write == Some(Append(raw, ci, si, p)))
  {
    match Seqs.FirstIndex(raw[ci].subcategories, (s: Subcategory) => s.name == p.subcategory)
    case None =>
    case Some(si) =>
      assert raw[ci].subcategories[si] in raw[ci].subcategories;
  }

  /** A successful POST adds exactly the new product to the document and nothing else. */
  lemma PostAddsOne(raw: seq<Category>, p: Product)
    requires PostOutcome(raw, p).write.Some?
    ensures multiset(JsonParser.FlatProducts(PostOutcome(raw, p).write.value))
      == multiset(JsonParser.FlatProducts(raw)) + multiset{p}
  {
    var ci := Seqs.FirstIndex(raw, (c: Category) => c.name == p.category).value;
    var subs := raw[ci].subcategories;
    var si := Seqs.FirstIndex(subs, (s: Subcategory) => s.name == p.subcategory).value;
    var w := Append(raw, ci, si, p);
    var subs' := w[ci].subcategories;
    assert raw == raw[..ci] + [raw[ci]] + raw[ci + 1..];
    assert w == raw[..ci] + [w[ci]] + raw[ci + 1..];
    assert subs == subs[..si] + [subs[si]] + subs[si + 1..];
    assert subs' == subs[..si] + [subs'[si]] + subs[si + 1..];
    JsonParser.FlatProductsConcat(raw[..ci] + [raw[ci]], raw[ci + 1..]);
    JsonParser.FlatProductsConcat(raw[..ci], [raw[ci]]);
    JsonParser.FlatProductsConcat(raw[..ci] + [w[ci]], raw[ci + 1..]);
    JsonParser.FlatProductsConcat(raw[..ci], [w[ci]]);
    assert JsonParser.FlatProducts([raw[ci]]) == JsonParser.SubcategoryProducts(subs);
    assert JsonParser.FlatProducts([w[ci]]) == JsonParser.SubcategoryProducts(subs');
    JsonParser.SubcategoryProductsConcat(subs[..si] + [subs[si]], subs[si + 1..]);
    JsonParser.SubcategoryProductsConcat(subs[..si], [subs[si]]);
    JsonParser.SubcategoryProductsConcat(subs[..si] + [subs'[si]], subs[si + 1..]);
    JsonParser.SubcategoryProductsConcat(subs[..si], [subs'[si]]);
    assert JsonParser.SubcategoryProducts([subs[si]]) == subs[si].products;
    assert JsonParser.SubcategoryProducts([subs'[si]]) == subs[si].products + [p];
  }

  /** After a successful POST, parsing the document lists the new product under its subcategory. */
  lemma PostThenListed(raw: seq<Category>, p: Product)
    requires PostOutcome(raw, p).write.Some?
    ensures var parsed := JsonParser.Parse(Document(PostOutcome(raw, p).write.value));
      exists i, j :: 0 <= i < |parsed.categories| && 0 <= j < |parsed.categories[i].subcategories|
        && p in parsed.categories[i].subcategories[j].products
  {
    var ci := Seqs.FirstIndex(raw, (c: Category) => c.name == p.category).value;
    var si := Seqs.FirstIndex(raw[ci].subcategories, (s: Subcategory) => s.name == p.subcategory).value;
    var w := Append(raw, ci, si, p);
    assert p in w[ci].subcategories[si].products;
    JsonParser.FlatProductsMember(w, p);
    JsonParser.SubcategoryListsMatches(w, ci, si, p);
  }

  // ---------------------------------------------------------------------------
  // PUT and DELETE (lines 55-111)

  /** The two edits: PUT replaces by the new product's id, DELETE removes by id. */
  datatype Edit = Replace(product: Product) | Remove(id: string)

  function EditId(e: Edit): string {
    match e
    case Replace(p) => p.id
    case Remove(id) => id
  }

  /** The `findIndex` test `p.id === id`. */
  function IdIs(id: string): Product -> bool {
    (q: Product) => q.id == id
  }

  function OtherThan(id: string): Product -> bool {
    (q: Product) => q.id != id
  }

  /** Lines 64-68 and 93-97: the first product with the id is replaced or spliced out. */
  function ApplyEdit(e: Edit, products: seq<Product>): seq<Product> {
    match Seqs.FirstIndex(products, IdIs(EditId(e)))
    case None => products
    case Some(k) =>
      match e
      case Replace(p) => products[k := p]
      case Remove(_) => Seqs.RemoveAt(products, k)
  }

  /**
   * Only the first product with the id is touched: DELETE shortens the list by
   * exactly one, PUT keeps its length, and a later product with the same id stays,
   * as does everything before the match. A list without the id is unchanged.
   */
  lemma EditFirstMatchOnly(e: Edit, products: seq<Product>, k: nat)
    requires k < |products| && products[k].id == EditId(e)
    requires forall j :: 0 <= j < k ==> products[j].id != EditId(e)
    ensures var r := ApplyEdit(e, products);
      && (forall j :: 0 <= j < k ==> r[j] == products[j])
      && (e.Remove? ==> |r| == |products| - 1 && forall b :: k < b < |products| ==> r[b - 1] == products[b])
      && (e.Replace? ==> |r| == |products| && r[k] == e.product)
      && (e.Replace? ==> forall b :: k < b < |products| ==> r[b] == products[b])
  {
  }

  /** A list in which no product has the id is left as it is. */
  lemma EditAbsentKeeps(e: Edit, products: seq<Product>)
    requires forall j :: 0 <= j < |products| ==> products[j].id != EditId(e)
    ensures ApplyEdit(e, products) == products
  {
  }

  function EditSubs(subs: seq<Subcategory>, e: Edit): seq<Subcategory> {
    seq(|subs|, j requires 0 <= j < |subs| => subs[j].(products := ApplyEdit(e, subs[j].products)))
  }

  function EditCategory(c: Category, e: Edit): Category {
    c.(subcategories := EditSubs(c.subcategories, e))
  }

  function EditAll(raw: seq<Category>, e: Edit): seq<Category> {
    seq(|raw|, i requires 0 <= i < |raw| => EditCategory(raw[i], e))
  }

  /** Some subcategory holds a product with the id (the flag of lines 61, 67 and 90, 96). */
  predicate SubsHit(subs: seq<Subcategory>, id: string) {
    subs != [] && (SubsHit(subs[..|subs| - 1], id) || Seqs.FirstIndex(subs[|subs| - 1].products, IdIs(id)).Some?)
  }

  predicate Hit(raw: seq<Category>, id: string) {
    raw != [] && (Hit(raw[..|raw| - 1], id) || SubsHit(raw[|raw| - 1].subcategories, id))
  }

  /** The inner `forEach` of lines 63-69 and 92-98, over the subcategories of one category. */
  method EditSubcategories(subs: seq<Subcategory>, e: Edit) returns (edited: seq<Subcategory>, found: bool)
    ensures edited == EditSubs(subs, e)
    ensures found == SubsHit(subs, EditId(e))
  {
    var id := EditId(e);
    edited := subs;
    found := false;
    var j := 0;
    while j < |edited|
      invariant 0 <= j <= |edited| == |subs|
      invariant forall m :: 0 <= m < j ==> edited[m] == subs[m].(products := ApplyEdit(e, subs[m].products))
      invariant forall m :: j <= m < |edited| ==> edited[m] == subs[m]
      invariant found == SubsHit(subs[..j], id)
    {
      var products := edited[j].products;
      var index := Seqs.FirstIndex(products, IdIs(id));
      if index.Some? {
        match e {
          case Replace(p) =>
            products := products[index.value := p];
          case Remove(_) =>
            products := Seqs.RemoveAt(products, index.value);
        }
        found := true;
      }
      assert subs[..j + 1][..j] == subs[..j];
      edited := edited[j := edited[j].(products := products)];
      j := j + 1;
    }
    assert subs[..j] == subs;
  }

  /** The outer `forEach` of lines 62-70 and 91-99, over the categories. */
  method EditProducts(raw: seq<Category>, e: Edit) returns (edited: seq<Category>, found: bool)
    ensures edited == EditAll(raw, e)
    ensures found == Hit(raw, EditId(e))
  {
    edited := raw;
    found := false;
    var i := 0;
    while i < |edited|
      invariant 0 <= i <= |edited| == |raw|
      invariant forall k :: 0 <= k < i ==> edited[k] == EditCategory(raw[k], e)
      invariant forall k :: i <= k < |edited| ==> edited[k] == raw[k]
      invariant found == Hit(raw[..i], EditId(e))
    {
      var subs, hit := EditSubcategories(edited[i].subcategories, e);
      found := found || hit;
      assert raw[..i + 1][..i] == raw[..i];
      edited := edited[i := edited[i].(subcategories := subs)];
      i := i + 1;
    }
    assert raw[..i] == raw;
  }

  /** Lines 72-76 and 101-105: not found is a 404 without a write. */
  function EditOutcome(raw: seq<Category>, e: Edit): Outcome {
    if Hit(raw, EditId(e)) then Outcome(Success, Some(EditAll(raw, e))) else Outcome(ProductNotFound, None)
  }

  method ApplyToFile(file: CatalogFile, e: Edit, writeSucceeds: bool) returns (r: Response)
    modifies file
    ensures file.readable == old(file.readable)
    ensures old(file.readable) && old(file.content).Document? ==>
      Committed(EditOutcome(old(file.content).category, e), writeSucceeds, old(file.content), file.content, r)
    ensures !old(file.readable) || old(file.content).Malformed? ==>
      r == ServerError && file.content == old(file.content)
  {
    if !file.readable || file.content.Malformed? {
      return ServerError;
    }
    var edited, found := EditProducts(file.content.category, e);
    if !found {
      return ProductNotFound;
    }
    r := file.Commit(Outcome(Success, Some(edited)), writeSucceeds);
  }

  /** PUT (lines 55-82). */
  method Put(file: CatalogFile, updatedProduct: Product, writeSucceeds: bool) returns (r: Response)
    modifies file
    ensures file.readable == old(file.readable)
    ensures old(file.readable) && old(file.content).Document? ==>
      Committed(EditOutcome(old(file.content).category, Replace(updatedProduct)), writeSucceeds, old(file.content), file.content, r)
    ensures !old(file.readable) || old(file.content).Malformed? ==>
      r == ServerError && file.content == old(file.content)
  {
    r := ApplyToFile(file, Replace(updatedProduct), writeSucceeds);
  }

  /** DELETE (lines 84-111). */
  method Delete(file: CatalogFile, id: string, writeSucceeds: bool) returns (r: Response)
    modifies file
    ensures file.readable == old(file.readable)
    ensures old(file.readable) && old(file.content).Document? ==>
      Committed(EditOutcome(old(file.content).category, Remove(id)), writeSucceeds, old(file.content), file.content, r)
    ensures !old(file.readable) || old(file.content).Malformed? ==>
      r == ServerError && file.content == old(file.content)
  {
    r := ApplyToFile(file, Remove(id), writeSucceeds);
  }

  lemma {:induction false} SubsHitIff(subs: seq<Subcategory>, id: string)
    ensures SubsHit(subs, id) <==> exists q :: q in JsonParser.SubcategoryProducts(subs) && q.id == id
  {
    if subs != [] {
      var last := subs[|subs| - 1].products;
      SubsHitIff(subs[..|subs| - 1], id);
      var k := Seqs.FirstIndex(last, IdIs(id));
      if k.Some? {
        assert last[k.value] in last;
      }
    }
  }

  /** PUT and DELETE report "Product not found" exactly when no product in the document has the id. */
  lemma {:induction false} HitIff(raw: seq<Category>, id: string)
    ensures Hit(raw, id) <==> exists q :: q in JsonParser.FlatProducts(raw) && q.id == id
  {
    if raw != [] {
      HitIff(raw[..|raw| - 1], id);
      SubsHitIff(raw[|raw| - 1].subcategories, id);
    }
  }

  /** One list: an edit leaves the products with other ids, in order, as they were. */
  lemma ApplyEditKeepsOthers(e: Edit, products: seq<Product>)
    ensures Seqs.Filter(ApplyEdit(e, products), OtherThan(EditId(e))) == Seqs.Filter(products, OtherThan(EditId(e)))
  {
    match Seqs.FirstIndex(products, IdIs(EditId(e)))
    case None =>
    case Some(k) =>
      match e
      case Replace(p) =>
        Seqs.FilterUpdateDropped(products, k, p, OtherThan(EditId(e)));
      case Remove(_) =>
        Seqs.FilterRemoveDropped(products, k, OtherThan(EditId(e)));
  }

  lemma {:induction false} EditSubsKeepsOthers(subs: seq<Subcategory>, e: Edit)
    ensures Seqs.Filter(JsonParser.SubcategoryProducts(EditSubs(subs, e)), OtherThan(EditId(e)))
      == Seqs.Filter(JsonParser.SubcategoryProducts(subs), OtherThan(EditId(e)))
  {
    var keep := OtherThan(EditId(e));
    if subs != [] {
      var n := |subs| - 1;
      var edited := EditSubs(subs, e);
      EditSubsKeepsOthers(subs[..n], e);
      assert edited[..n] == EditSubs(subs[..n], e);
      Seqs.FilterAppend(JsonParser.SubcategoryProducts(edited[..n]), edited[n].products, keep);
      Seqs.FilterAppend(JsonParser.SubcategoryProducts(subs[..n]), subs[n].products, keep);
      ApplyEditKeepsOthers(e, subs[n].products);
    }
  }

  /** PUT and DELETE leave every product with another id where it was, in document order. */
  lemma {:induction false} EditKeepsOthers(raw: seq<Category>, e: Edit)
    ensures Seqs.Filter(JsonParser.FlatProducts(EditAll(raw, e)), OtherThan(EditId(e)))
      == Seqs.Filter(JsonParser.FlatProducts(raw), OtherThan(EditId(e)))
  {
    var keep := OtherThan(EditId(e));
    if raw != [] {
      var n := |raw| - 1;
      var edited := EditAll(raw, e);
      EditKeepsOthers(raw[..n], e);
      assert edited[..n] == EditAll(raw[..n], e);
      assert edited[n].subcategories == EditSubs(raw[n].subcategories, e);
      var front := JsonParser.FlatProducts(raw[..n]);
      var front' := JsonParser.FlatProducts(edited[..n]);
      assert JsonParser.FlatProducts(edited) == front' + JsonParser.SubcategoryProducts(edited[n].subcategories);
      assert JsonParser.FlatProducts(raw) == front + JsonParser.SubcategoryProducts(raw[n].subcategories);
      Seqs.FilterAppend(front', JsonParser.SubcategoryProducts(edited[n].subcategories), keep);
      Seqs.FilterAppend(front, JsonParser.SubcategoryProducts(raw[n].subcategories), keep);
      EditSubsKeepsOthers(raw[n].subcategories, e);
    }
  }

  /** After a successful PUT the document holds the updated product. */
  lemma {:induction false} PutStores(raw: seq<Category>, p: Product)
    requires Hit(raw, p.id)
    ensures p in JsonParser.FlatProducts(EditAll(raw, Replace(p)))
  {
    var n := |raw| - 1;
    var edited := EditAll(raw, Replace(p));
    assert edited[..n] == EditAll(raw[..n], Replace(p));
    if Hit(raw[..n], p.id) {
      PutStores(raw[..n], p);
    } else {
      PutStoresSubs(raw[n].subcategories, p);
      assert edited[n] == EditCategory(raw[n], Replace(p));
    }
  }

  lemma {:induction false} PutStoresSubs(subs: seq<Subcategory>, p: Product)
    requires SubsHit(subs, p.id)
    ensures p in JsonParser.SubcategoryProducts(EditSubs(subs, Replace(p)))
  {
    var n := |subs| - 1;
    var edited := EditSubs(subs, Replace(p));
    assert edited[..n] == EditSubs(subs[..n], Replace(p));
    if SubsHit(subs[..n], p.id) {
      PutStoresSubs(subs[..n], p);
    } else {
      var k := Seqs.FirstIndex(subs[n].products, IdIs(p.id)).value;
      assert edited[n].products[k] == p;
    }
  }

  /** At most one product of the list has the id. */
  predicate AtMostOnce(products: seq<Product>, id: string) {
    forall a, b :: 0 <= a < b < |products| && products[a].id == id ==> products[b].id != id
  }

  lemma RemoveUnique(products: seq<Product>, id: string)
    requires AtMostOnce(products, id)
    ensures forall q :: q in ApplyEdit(Remove(id), products) ==> q.id != id
  {
    match Seqs.FirstIndex(products, IdIs(id))
    case None =>
    case Some(k) =>
      var r := ApplyEdit(Remove(id), products);
      forall q | q in r
        ensures q.id != id
      {
        var m :| 0 <= m < |r| && r[m] == q;
        if m >= k {
          assert r[m] == products[m + 1];
        }
      }
  }

  /**
   * DELETE removes only the first match of each subcategory: when no subcategory
   * lists the id twice, no product with the id is left in the document.
   */
  lemma DeleteRemovesUnique(raw: seq<Category>, id: string)
    requires forall i, j :: 0 <= i < |raw| && 0 <= j < |raw[i].subcategories| ==>
      AtMostOnce(raw[i].subcategories[j].products, id)
    ensures forall q :: q in JsonParser.FlatProducts(EditAll(raw, Remove(id))) ==> q.id != id
  {
    var w := EditAll(raw, Remove(id));
    forall q | q in JsonParser.FlatProducts(w)
      ensures q.id != id
    {
      JsonParser.FlatProductsMember(w, q);
      var i, j :| 0 <= i < |w| && 0 <= j < |w[i].subcategories| && q in w[i].subcategories[j].products;
      RemoveUnique(raw[i].subcategories[j].products, id);
    }
  }
}
