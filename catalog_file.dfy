/**
 * The products file `public/data/products.json` as the API routes see it: it can
 * be unreadable, and a write either replaces its content or fails and leaves it
 * as it was. Every route handler ends in one of the responses below.
 */
module CatalogFiles {
  import opened Wrappers
  import opened CatalogTypes

  /** The responses of src/app/api/products/route.ts and src/app/api/categories/route.ts. */
  datatype Response =
    | Success            // 200 with a "... successfully" message
    | CategoryNotFound   // 400 from products POST, 404 from categories PUT
    | SubcategoryNotFound // 400 from products POST
    | ProductNotFound    // 404 from products PUT and DELETE
    | ServerError        // 500: the file could not be read, parsed or written

  /** What a handler decided: its response, and the categories to write when it writes. */
  datatype Outcome = Outcome(response: Response, write: Option<seq<Category>>)

  /**
   * The file content and response after committing `out` to a file holding
   * `before`: a failed write is a server error and changes nothing.
   */
  predicate Committed(out: Outcome, writeSucceeds: bool, before: CatalogDocument, after: CatalogDocument, r: Response) {
    match out.write
    case None => r == out.response && after == before
    case Some(categories) =>
      if writeSucceeds then r == out.response && after == Document(categories)
      else r == ServerError && after == before
  }

  class CatalogFile {
    var readable: bool
    var content: CatalogDocument

    constructor (readable: bool, content: CatalogDocument)
      ensures this.readable == readable && this.content == content
    {
      this.readable := readable;
      this.content := content;
    }

    /** `fs.writeFile(JSON_PATH, JSON.stringify({ products: { category } }))` when the handler writes. */
    method Commit(out: Outcome, writeSucceeds: bool) returns (r: Response)
      modifies this
      ensures readable == old(readable)
      ensures Committed(out, writeSucceeds, old(content), content, r)
    {
      r := out.response;
      if out.write.Some? {
        if writeSucceeds {
          content := Document(out.write.value);
        } else {
          r := ServerError;
        }
      }
    }
  }
}
