/** The catalog records of src/lib/types.ts and the products document they are read from. */
module CatalogTypes {

  /**
   * A catalog product. Prices are integers in the catalog's currency unit;
   * `specifications` maps attribute names to values (keys are unique, as in a JSON object).
   */
  datatype Product = Product(
    id: string,
    name: string,
    brand: string,
    price: int,
    description: string,
    sizes: seq<string>,
    colors: seq<string>,
    category: string,
    subcategory: string,
    specifications: map<string, string>,
    images: seq<string>)

  datatype Subcategory = Subcategory(id: string, name: string, categoryId: string, products: seq<Product>)

  datatype Category = Category(id: string, name: string, image: string, subcategories: seq<Subcategory>)

  /** An entry of the country list used by the phone input. */
  datatype CountryCode = CountryCode(code: string, name: string, dialCode: string)

  /**
   * The content of the products file: the document `{ products: { category: [...] } }`,
   * or text that is not JSON of that shape (a syntax error or a missing field).
   */
  datatype CatalogDocument = Malformed | Document(category: seq<Category>)
}
