/** The product page's add button, src/components/AddToCartButton.tsx. */
module AddToCartButton {
  import opened Wrappers
  import opened StoreTypes
  import CatalogTypes
  import CartContext

  /** Line 34: `!selectedSize || !selectedColor`; an absent and an empty choice are both falsy. */
  predicate Disabled(selectedSize: Option<string>, selectedColor: Option<string>) {
    selectedSize.GetOr("") == "" || selectedColor.GetOr("") == ""
  }

  /** Lines 18-28: the product's fields, the chosen options and quantity 1. */
  function Payload(product: CatalogTypes.Product, selectedSize: Option<string>, selectedColor: Option<string>): CartItem {
    CartItem(product.id, product.name, product.price, 1, selectedSize, selectedColor, product.images)
  }

  /** The button is enabled exactly when both a size and a color are chosen and non-empty. */
  lemma EnabledIff(selectedSize: Option<string>, selectedColor: Option<string>)
    ensures !Disabled(selectedSize, selectedColor) <==>
      (selectedSize.Some? && selectedSize.value != "" && selectedColor.Some? && selectedColor.value != "")
  {
  }

  /** Some line of the cart holds the product in that size and color. */
  predicate HasLine(items: seq<CartItem>, id: string, size: Option<string>, color: Option<string>) {
    exists j :: 0 <= j < |items| && items[j].id == id && items[j].selectedSize == size && items[j].selectedColor == color
  }

  /**
   * A click for a product, size and color not yet in the cart appends one line with
   * the product's id, name, price and images, the chosen options and quantity 1.
   * When the cart already holds that product in that size and color, the click
   * raises the quantity of that line by one and leaves every other line.
   */
  lemma ClickAddsLine(items: seq<CartItem>, product: CatalogTypes.Product, size: Option<string>, color: Option<string>)
    ensures var r := CartContext.Reduce(items, CartContext.AddToCart(Payload(product, size, color)));
      var present := HasLine(items, product.id, size, color);
      && (!present ==>
            && |r| == |items| + 1 && r[..|items|] == items
            && r[|items|].id == product.id && r[|items|].name == product.name
            && r[|items|].price == product.price && r[|items|].images == product.images
            && r[|items|].selectedSize == size && r[|items|].selectedColor == color
            && r[|items|].quantity == 1)
      && (present ==>
            && |r| == |items|
            && exists k :: 0 <= k < |items| && items[k].id == product.id
                 && items[k].selectedSize == size && items[k].selectedColor == color
                 && r[k] == items[k].(quantity := items[k].quantity + 1)
                 && forall m :: 0 <= m < |items| && m != k ==> r[m] == items[m])
  {
    var x := Payload(product, size, color);
    if HasLine(items, product.id, size, color) {
      var j :| 0 <= j < |items| && items[j].id == product.id
        && items[j].selectedSize == size && items[j].selectedColor == color;
      CartContext.AddExisting(items, x, j);
    } else {
      CartContext.AddNew(items, x);
    }
  }

  /** A click adds one unit of the product's price to the cart total. */
  lemma ClickAddsUnitPrice(items: seq<CartItem>, product: CatalogTypes.Product, size: Option<string>, color: Option<string>)
    requires forall j :: 0 <= j < |items| && items[j].id == product.id ==> items[j].price == product.price
    ensures CartContext.Total(CartContext.Reduce(items, CartContext.AddToCart(Payload(product, size, color))))
      == CartContext.Total(items) + product.price
  {
    CartContext.TotalAfterAdd(items, Payload(product, size, color));
  }
}
