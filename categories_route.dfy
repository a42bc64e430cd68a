/**
 * The category handlers of src/app/api/categories/route.ts. Unlike the product
 * handlers they start from the normalised catalog of `parseProductsJson` and
 * write its categories back, so every write also re-files the products by name
 * and drops products that match no subcategory; content that does not parse
 * counts as an empty catalog.
 */
module CategoriesRoute {
  import opened Wrappers
  import opened CatalogTypes
  import Seqs
  import JsonParser
  import opened CatalogFiles

  /** Lines 8-17 of the file. */
  method Get(file: CatalogFile) returns (r: Option<seq<Category>>)
    ensures file.readable ==> r == Some(JsonParser.Parse(file.content).categories)
    ensures !file.readable ==> r.None?
  {
    if !file.readable {
      return None;
    }
    var catalog := JsonParser.ParseProductsJson(file.content);
    r := Some(catalog.categories);
  }

  /** Lines 19-37: append the new category. */
  function PostOutcome(doc: CatalogDocument, newCategory: Category): Outcome {
    Outcome(Success, Some(JsonParser.Parse(doc).categories + [newCategory]))
  }

  /** Lines 39-62: replace the first category with the id, or 404 without a write. */
  function PutOutcome(doc: CatalogDocument, updated: Category): Outcome {
    var categories := JsonParser.Parse(doc).categories;
    match Seqs.FirstIndex(categories, (c: Category) => c.id == updated.id)
    case None => Outcome(CategoryNotFound, None)
    case Some(k) => Outcome(Success, Some(categories[k := updated]))
  }

  /** Lines 64-82: drop every category with the id; an absent id still succeeds and writes. */
  function DeleteOutcome(doc: CatalogDocument, id: string): Outcome {
    Outcome(Success, Some(Seqs.Filter(JsonParser.Parse(doc).categories, (c: Category) => c.id != id)))
  }

  method Post(file: CatalogFile, newCategory: Category, writeSucceeds: bool) returns (r: Response)
    modifies file
    ensures file.readable == old(file.readable)
    ensures old(file.readable) ==>
      Committed(PostOutcome(old(file.content), newCategory), writeSucceeds, old(file.content), file.content, r)
    ensures !old(file.readable) ==> r == ServerError && file.content == old(file.content)
  {
    if !file.readable {
      return ServerError;
    }
    var catalog := JsonParser.ParseProductsJson(file.content);
    var categories := catalog.categories + [newCategory];
    r := file.Commit(Outcome(Success, Some(categories)), writeSucceeds);
  }

  method Put(file: CatalogFile, updated: Category, writeSucceeds: bool) returns (r: Response)
    modifies file
    ensures file.readable == old(file.readable)
    ensures old(file.readable) ==>
      Committed(PutOutcome(old(file.content), updated), writeSucceeds, old(file.content), file.content, r)
    ensures !old(file.readable) ==> r == ServerError && file.content == old(file.content)
  {
    if !file.readable {
      return ServerError;
    }
    var catalog := JsonParser.ParseProductsJson(file.content);
    var categories := catalog.categories;
    var index := Seqs.FirstIndex(categories, (c: Category) => c.id == updated.id);
    if index.None? {
      return CategoryNotFound;
    }
    categories := categories[index.value := updated];
    r := file.Commit(Outcome(Success, Some(categories)), writeSucceeds);
  }

  method Delete(file: CatalogFile, id: string, writeSucceeds: bool) returns (r: Response)
    modifies file
    ensures file.readable == old(file.readable)
    ensures old(file.readable) ==>
      Committed(DeleteOutcome(old(file.content), id), writeSucceeds, old(file.content), file.content, r)
    ensures !old(file.readable) ==> r == ServerError && file.content == old(file.content)
  {
    if !file.readable {
      return ServerError;
    }
    var catalog := JsonParser.ParseProductsJson(file.content);
    var remaining := Seqs.Filter(catalog.categories, (c: Category) => c.id != id);
    r := file.Commit(Outcome(Success, Some(remaining)), writeSucceeds);
  }

  /** POST keeps the existing categories in order and puts the new one last. */
  lemma PostAppends(doc: CatalogDocument, newCategory: Category)
    ensures var w := PostOutcome(doc, newCategory).write.value;
      && |w| == |JsonParser.Parse(doc).categories| + 1
      && w[|w| - 1] == newCategory
      && w[..|w| - 1] == JsonParser.Parse(doc).categories
  {
  }

  /** A file whose content does not parse is overwritten with the new category alone. */
  lemma PostOnMalformedKeepsOnlyNew(newCategory: Category)
    ensures PostOutcome(Malformed, newCategory).write == Some([newCategory])
  {
    assert JsonParser.Parse(Malformed).categories + [newCategory] == [newCategory];
  }

  /**
   * PUT answers "Category not found" exactly when no parsed category has the id;
   * otherwise only the first such category is replaced.
   */
  lemma PutResponses(doc: CatalogDocument, updated: Category)
    ensures var categories := JsonParser.Parse(doc).categories;
      var out := PutOutcome(doc, updated);
      && (out.response == CategoryNotFound <==> forall c :: c in categories ==> c.id != updated.id)
      && (out.response == Success ==>
            exists k :: 0 <= k < |categories| && categories[k].id == updated.id
              && (forall m :: 0 <= m < k ==> categories[m].id != updated.id)
              && out.write == Some(categories[k := updated]))
  {
    var categories := JsonParser.Parse(doc).categories;
    match Seqs.FirstIndex(categories, (c: Category) => c.id == updated.id)
    case None =>
    case Some(k) =>
      assert categories[k] in categories;
  }

  /** DELETE keeps exactly the categories with another id, in order. */
  lemma DeleteKeepsOthers(doc: CatalogDocument, id: string, c: Category) returns (idx: seq<nat>)
    ensures var w := DeleteOutcome(doc, id).write.value;
      && (c in w <==> c in JsonParser.Parse(doc).categories && c.id != id)
      && (forall d :: d in w ==> d.id != id)
      && Seqs.Embeds(w, JsonParser.Parse(doc).categories, idx)
  {
    idx := Seqs.FilterIsSubsequence(JsonParser.Parse(doc).categories, (d: Category) => d.id != id);
    Seqs.FilterMember(JsonParser.Parse(doc).categories, (d: Category) => d.id != id, c);
    var w := DeleteOutcome(doc, id).write.value;
    forall d | d in w
      ensures d.id != id
    {
      Seqs.FilterMember(JsonParser.Parse(doc).categories, (d: Category) => d.id != id, d);
    }
  }

  /**
   * Every category write stores the normalised catalog: a product of the file whose
   * category and subcategory names match no subcategory is gone from the file after
   * a DELETE, even one of an id that no category has.
   */
  lemma DeleteDropsOrphans(raw: seq<Category>, id: string, p: Product)
    requires p in JsonParser.FlatProducts(raw)
    requires forall i, j :: 0 <= i < |raw| && 0 <= j < |raw[i].subcategories| ==>
      !JsonParser.BelongsTo(p, raw[i].name, raw[i].subcategories[j].name)
    ensures p !in JsonParser.FlatProducts(DeleteOutcome(Document(raw), id).write.value)
  {
    var parsed := JsonParser.Parse(Document(raw)).categories;
    var w := DeleteOutcome(Document(raw), id).write.value;
    JsonParser.OrphanListedNowhere(raw, p);
    JsonParser.ParseKeepsShape(raw);
    JsonParser.FlatProductsMember(w, p);
  }
}
