/** The cart page's handlers and total, src/components/ShoppingCart.tsx. */
module ShoppingCart {
  import opened StoreTypes
  import opened CartContext
  import Seqs

  /** Line 66: the minus button asks for one less, but never below 1. */
  function MinusAction(item: CartItem): (r: CartAction)
    ensures r.UpdateQuantity? && r.id == item.id && r.quantity >= 1
    ensures item.quantity > 1 ==> r.quantity == item.quantity - 1
    ensures item.quantity <= 1 ==> r.quantity == 1
  {
    UpdateQuantity(item.id, if item.quantity - 1 > 1 then item.quantity - 1 else 1)
  }

  /** Line 73: the plus button asks for one more. */
  function PlusAction(item: CartItem): CartAction
  {
    UpdateQuantity(item.id, item.quantity + 1)
  }

  /** Lines 19-21 and 77: removal by the bare product id. */
  function RemoveAction(item: CartItem): CartAction
  {
    RemoveFromCart(item.id)
  }

  /** Lines 27-29. */
  function ClearAction(): CartAction
  {
    ClearCart
  }

  /**
   * After the minus button of line k, the line shows max(1, q - 1), and so does every
   * other size or color of the same product; lines of other products are untouched.
   */
  lemma MinusEffect(items: seq<CartItem>, k: nat)
    requires k < |items|
    ensures var r := Reduce(items, MinusAction(items[k]));
      && |r| == |items|
      && r[k].quantity == (if items[k].quantity > 1 then items[k].quantity - 1 else 1)
      && (forall j :: 0 <= j < |r| && items[j].id == items[k].id ==>
            r[j].quantity == (if items[k].quantity > 1 then items[k].quantity - 1 else 1) && SameLine(r[j], items[j]))
      && (forall j :: 0 <= j < |r| && items[j].id != items[k].id ==> r[j] == items[j])
  {
    UpdateQuantityEffect(items, items[k].id, MinusAction(items[k]).quantity);
  }

  /**
   * After the plus button of line k, every size and color of the product shows
   * q + 1, where q is the quantity of line k; lines of other products are untouched.
   */
  lemma PlusEffect(items: seq<CartItem>, k: nat)
    requires k < |items|
    ensures var r := Reduce(items, PlusAction(items[k]));
      && |r| == |items|
      && (forall j :: 0 <= j < |r| && items[j].id == items[k].id ==>
            r[j].quantity == items[k].quantity + 1 && SameLine(r[j], items[j]))
      && (forall j :: 0 <= j < |r| && items[j].id != items[k].id ==> r[j] == items[j])
  {
    UpdateQuantityEffect(items, items[k].id, items[k].quantity + 1);
  }

  /**
   * The remove button of line k takes out every line of that product, whatever its
   * size and color, and keeps the other lines in order.
   */
  lemma RemoveEffect(items: seq<CartItem>, k: nat, i: CartItem) returns (idx: seq<nat>)
    requires k < |items|
    ensures var r := Reduce(items, RemoveAction(items[k]));
      && (i in r <==> i in items && i.id != items[k].id)
      && (forall j :: 0 <= j < |r| ==> r[j].id != items[k].id)
      && Seqs.Embeds(r, items, idx)
  {
    idx := RemoveAllVariants(items, items[k].id, i);
  }

  /** Plus then minus on a line restores its quantity when it was at least 1. */
  lemma PlusThenMinus(items: seq<CartItem>, k: nat)
    requires k < |items| && items[k].quantity >= 1
    ensures var r := Reduce(items, PlusAction(items[k]));
      k < |r| && Reduce(r, MinusAction(r[k]))[k] == items[k]
  {
    var r := Reduce(items, PlusAction(items[k]));
    UpdateQuantityEffect(items, items[k].id, items[k].quantity + 1);
    UpdateQuantityEffect(r, items[k].id, items[k].quantity);
  }

  /** Line 31: with non-negative prices and quantities the shown total is non-negative. */
  lemma {:induction false} TotalNonNegative(items: seq<CartItem>)
    requires forall j :: 0 <= j < |items| ==> items[j].price >= 0 && items[j].quantity >= 0
    ensures Total(items) >= 0
  {
    if items != [] {
      TotalNonNegative(items[..|items| - 1]);
    }
  }

  /** Line 31: the total of an empty cart is 0 and a single line contributes price times quantity. */
  lemma TotalSingle(x: CartItem)
    ensures Total([]) == 0
    ensures Total([x]) == x.price * x.quantity
  {
    assert [x][..0] == [];
  }

  /** Clearing the cart empties it, so the page shows a total of 0. */
  lemma ClearedTotal(items: seq<CartItem>)
    ensures Reduce(items, ClearAction()) == []
    ensures Total(Reduce(items, ClearAction())) == 0
  {
  }
}
