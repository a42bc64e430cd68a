/**
 * The cart of src/contexts/CartContext.tsx: the reducer, the order total and id,
 * the store transforms of saveCart, createOrder and addUserAddress, and the
 * provider that runs them against the database.
 */
module CartContext {
  import opened Wrappers
  import opened StoreTypes
  import Seqs
  import Database

  datatype CartAction =
    | AddToCart(item: CartItem)
    | RemoveFromCart(id: string)
    | UpdateQuantity(id: string, quantity: int)
    | ClearCart
    | LoadCart(items: seq<CartItem>)

  /** Lines 35-38: lines are merged on (id, selectedSize, selectedColor). */
  predicate SameLine(a: CartItem, b: CartItem) {
    a.id == b.id && a.selectedSize == b.selectedSize && a.selectedColor == b.selectedColor
  }

  function SameLineAs(x: CartItem): CartItem -> bool {
    (i: CartItem) => SameLine(i, x)
  }

  function NotId(id: string): CartItem -> bool {
    (i: CartItem) => i.id != id
  }

  /** The `findIndex` of lines 34-39. */
  function LineOf(items: seq<CartItem>, x: CartItem): Option<nat> {
    Seqs.FirstIndex(items, SameLineAs(x))
  }

  /** Lines 51-53: every line with the id gets the quantity. */
  function SetQuantity(items: seq<CartItem>, id: string, quantity: int): seq<CartItem> {
    seq(|items|, j requires 0 <= j < |items| => if items[j].id == id then items[j].(quantity := quantity) else items[j])
  }

  /** Lines 33-45: merge into the first equal line, or append with quantity 1. */
  function AddLine(items: seq<CartItem>, x: CartItem): seq<CartItem> {
    match LineOf(items, x)
    case Some(k) => items[k := items[k].(quantity := items[k].quantity + 1)]
    case None => items + [x.(quantity := 1)]
  }

  /** `cartReducer` (lines 31-62) on values: the next list of items. */
  function Reduce(items: seq<CartItem>, action: CartAction): seq<CartItem> {
    match action
    case AddToCart(x) => AddLine(items, x)
    case RemoveFromCart(id) => Seqs.Filter(items, NotId(id))
    case UpdateQuantity(id, quantity) => SetQuantity(items, id, quantity)
    case ClearCart => []
    case LoadCart(payload) => payload
  }

  /** Adding a line already in the cart keeps the length and bumps that line by one. */
  lemma AddExisting(items: seq<CartItem>, x: CartItem, j: nat)
    requires j < |items| && SameLine(items[j], x)
    ensures var r := Reduce(items, AddToCart(x));
      && |r| == |items|
      && (exists k ::
            && 0 <= k <= j && SameLine(items[k], x)
            && r[k] == items[k].(quantity := items[k].quantity + 1)
            && forall m :: 0 <= m < |items| && m != k ==> r[m] == items[m])
  {
    assert !LineOf(items, x).None?;
  }

  /** A new line is appended with quantity 1, whatever quantity the payload carries. */
  lemma AddNew(items: seq<CartItem>, x: CartItem)
    requires forall j :: 0 <= j < |items| ==> !SameLine(items[j], x)
    ensures Reduce(items, AddToCart(x)) == items + [x.(quantity := 1)]
  {
    assert LineOf(items, x).None?;
  }

  /** Adding the same line twice to a cart without it gives one line of quantity 2. */
  lemma AddTwice(items: seq<CartItem>, x: CartItem)
    requires forall j :: 0 <= j < |items| ==> !SameLine(items[j], x)
    ensures Reduce(Reduce(items, AddToCart(x)), AddToCart(x)) == items + [x.(quantity := 2)]
  {
    AddNew(items, x);
    var once := items + [x.(quantity := 1)];
    assert SameLine(once[|items|], x);
    assert LineOf(once, x) == Some(|items|);
  }

  /** Removal is by bare id: every size and color of the product goes, the rest stays in order. */
  lemma RemoveAllVariants(items: seq<CartItem>, id: string, i: CartItem) returns (idx: seq<nat>)
    ensures var r := Reduce(items, RemoveFromCart(id));
      && (i in r <==> i in items && i.id != id)
      && Seqs.Embeds(r, items, idx)
  {
    Seqs.FilterMember(items, NotId(id), i);
    idx := Seqs.FilterIsSubsequence(items, NotId(id));
  }

  /** A quantity update is by bare id too: it reaches every variant and no other line. */
  lemma UpdateQuantityEffect(items: seq<CartItem>, id: string, quantity: int)
    ensures var r := Reduce(items, UpdateQuantity(id, quantity));
      && |r| == |items|
      && (forall j :: 0 <= j < |r| && items[j].id == id ==> r[j].quantity == quantity && SameLine(r[j], items[j]))
      && (forall j :: 0 <= j < |r| && items[j].id != id ==> r[j] == items[j])
  {
  }

  lemma ClearAndLoad(items: seq<CartItem>, payload: seq<CartItem>)
    ensures Reduce(items, ClearCart) == []
    ensures Reduce(items, LoadCart(payload)) == payload
  {
  }

  // ---------------------------------------------------------------------------
  // Total and order id (lines 106-107)

  /** `items.reduce((sum, item) => sum + item.price * item.quantity, 0)` */
  function Total(items: seq<CartItem>): int {
    if items == [] then 0 else Total(items[..|items| - 1]) + items[|items| - 1].price * items[|items| - 1].quantity
  }

  lemma {:induction false} TotalAppend(a: seq<CartItem>, b: seq<CartItem>)
    ensures Total(a + b) == Total(a) + Total(b)
  {
    if b == [] {
      assert a + b == a;
    } else {
      var b' := b[..|b| - 1];
      assert (a + b)[..|a + b| - 1] == a + b';
      TotalAppend(a, b');
    }
  }

  /** Changing one line changes the total by the difference of that line's amounts. */
  lemma TotalUpdate(items: seq<CartItem>, k: nat, v: CartItem)
    requires k < |items|
    ensures Total(items[k := v]) == Total(items) - items[k].price * items[k].quantity + v.price * v.quantity
  {
    assert items == items[..k] + [items[k]] + items[k + 1..];
    assert items[k := v] == items[..k] + [v] + items[k + 1..];
    TotalAppend(items[..k] + [items[k]], items[k + 1..]);
    TotalAppend(items[..k], [items[k]]);
    TotalAppend(items[..k] + [v], items[k + 1..]);
    TotalAppend(items[..k], [v]);
  }

  /** Adding a product raises the total by one unit price: the payload's, or that of the merged line. */
  lemma TotalAfterAdd(items: seq<CartItem>, x: CartItem)
    ensures Total(Reduce(items, AddToCart(x))) == Total(items) +
      match LineOf(items, x) case Some(k) => items[k].price case None => x.price
  {
    match LineOf(items, x)
    case Some(k) =>
      var q := items[k].quantity;
      TotalUpdate(items, k, items[k].(quantity := q + 1));
      assert items[k].price * (q + 1) == items[k].price * q + items[k].price;
    case None =>
      TotalAppend(items, [x.(quantity := 1)]);
  }

  /** The largest order id, for a non-empty list. */
  function MaxId(orders: seq<Order>): (m: int)
    requires orders != []
    ensures forall o :: o in orders ==> o.id <= m
    ensures exists o :: o in orders && o.id == m
  {
    if |orders| == 1 then orders[0].id
    else
      var front := orders[..|orders| - 1];
      var m := MaxId(front);
      assert forall o :: o in front ==> o in orders;
      if orders[|orders| - 1].id > m then orders[|orders| - 1].id else m
  }

  /** Line 106: 1 for no orders, else one more than the largest id. */
  function NewOrderId(orders: seq<Order>): (r: int)
    ensures orders == [] ==> r == 1
    ensures forall o :: o in orders ==> o.id < r
    ensures orders != [] ==> exists o :: o in orders && r == o.id + 1
  {
    if |orders| > 0 then MaxId(orders) + 1 else 1
  }

  /** Lines 109-116. */
  function MakeOrder(orders: seq<Order>, items: seq<CartItem>, shippingAddress: Address, email: string, date: string): Order {
    Order(NewOrderId(orders), items, Total(items), date, shippingAddress, email)
  }

  // ---------------------------------------------------------------------------
  // Store transforms (lines 84-93, 118-129, 154-163)

  /**
   * Lines 84-93: the user's cart becomes the current items. A user without a record
   * would get a fragment record in the source; see the README.
   */
  function SaveCartTransform(email: string, items: seq<CartItem>, d: Store): Store {
    if email in d.users then d.(users := d.users[email := d.users[email].(cart := items)]) else d
  }

  /** Lines 118-129; a missing record makes the transform throw. */
  function CreateOrderTransform(email: string, order: Order, d: Store): Option<Store> {
    if email !in d.users then None
    else
      var u := d.users[email];
      Some(d.(users := d.users[email := u.(orders := u.orders + [order], cart := [])],
              adminOrders := d.adminOrders + [order]))
  }

  /** Lines 154-163; a missing record makes the transform throw. */
  function AddAddressTransform(email: string, address: Address, d: Store): Option<Store> {
    if email !in d.users then None
    else
      var u := d.users[email];
      Some(d.(users := d.users[email := u.(addresses := u.addresses + [address])]))
  }

  function SaveCartFn(email: string, items: seq<CartItem>): Store -> Option<Store> {
    d => Some(SaveCartTransform(email, items, d))
  }

  function CreateOrderFn(email: string, order: Order): Store -> Option<Store> {
    d => CreateOrderTransform(email, order, d)
  }

  function AddAddressFn(email: string, address: Address): Store -> Option<Store> {
    d => AddAddressTransform(email, address, d)
  }

  /** The same order goes to the user's history and to the admin ledger; the cart empties; nobody else changes. */
  lemma CreateOrderEffect(email: string, order: Order, d: Store)
    requires email in d.users
    ensures var d' := CreateOrderTransform(email, order, d).value;
      && d'.users.Keys == d.users.Keys
      && d'.users[email].orders == d.users[email].orders + [order]
      && d'.users[email].cart == []
      && d'.users[email].addresses == d.users[email].addresses
      && d'.adminOrders == d.adminOrders + [order]
      && d'.adminUsers == d.adminUsers
      && forall e :: e in d.users && e != email ==> d'.users[e] == d.users[e]
  {
  }

  /** A freshly made order has an id above all of the user's ids and the cart's total. */
  lemma MakeOrderFacts(orders: seq<Order>, items: seq<CartItem>, address: Address, email: string, date: string)
    ensures var o := MakeOrder(orders, items, address, email, date);
      && (forall p :: p in orders ==> p.id < o.id)
      && o.total == Total(items)
      && o.items == items
  {
  }

  lemma SaveCartEffect(email: string, items: seq<CartItem>, d: Store)
    ensures var d' := SaveCartTransform(email, items, d);
      && d'.users.Keys == d.users.Keys
      && (email in d.users ==> d'.users[email] == d.users[email].(cart := items))
      && (forall e :: e in d.users && e != email ==> d'.users[e] == d.users[e])
      && d'.adminUsers == d.adminUsers && d'.adminOrders == d.adminOrders
  {
  }

  lemma AddAddressEffect(email: string, address: Address, d: Store)
    ensures CreateOrderTransform(email, Order(0, [], 0, "", address, email), d).None? <==> email !in d.users
    ensures AddAddressTransform(email, address, d).None? <==> email !in d.users
    ensures email in d.users ==>
      var d' := AddAddressTransform(email, address, d).value;
      && d'.users[email].addresses == d.users[email].addresses + [address]
      && (forall e :: e in d.users && e != email ==> d'.users[e] == d.users[e])
      && d'.users.Keys == d.users.Keys && d'.adminOrders == d.adminOrders
  {
  }

  // ---------------------------------------------------------------------------
  // The provider (lines 64-171)

  class CartProvider {
    var items: seq<CartItem>
    /** The email of the logged-in user (`useAuth().user`), if any. */
    var user: Option<string>
    const db: Database.StoreFile

    constructor (user: Option<string>, db: Database.StoreFile)
      ensures this.items == [] && this.user == user && this.db == db
    {
      items := [];
      this.user := user;
      this.db := db;
    }

    method Dispatch(action: CartAction)
      modifies this
      ensures items == Reduce(old(items), action)
      ensures user == old(user)
    {
      items := Reduce(items, action);
    }

    /** The effect of lines 68-79: load the stored cart of the user, when there is one. */
    method LoadCartEffect()
      modifies this
      ensures user == old(user)
      ensures user.Some? && user.value in db.Read().users ==> items == db.Read().users[user.value].cart
      ensures !(user.Some? && user.value in db.Read().users) ==> items == old(items)
    {
      if user.Some? {
        var data := db.Read();
        if user.value in data.users {
          Dispatch(LoadCart(data.users[user.value].cart));
        }
      }
    }

    /** The effect of lines 81-97: persist the items for the logged-in user. */
    method SaveCartEffect(writeSucceeds: bool)
      modifies db
      ensures user.None? ==> db.file == old(db.file)
      ensures user.Some? ==> db.file == Database.Update(old(db.file), SaveCartFn(user.value, items), writeSucceeds).0
    {
      if user.Some? {
        var _ := db.UpdateDatabase(SaveCartFn(user.value, items), writeSucceeds);
      }
    }

    /**
     * Lines 99-132. `ok` is false where the source throws: no user, or no record for
     * the user (line 106). The cart is cleared even when the write fails, since
     * `updateDatabase` does not throw.
     */
    method CreateOrder(shippingAddress: Address, date: string, writeSucceeds: bool) returns (ok: bool)
      modifies this, db
      ensures user == old(user)
      ensures ok <==> old(user).Some? && old(user).value in old(db.Read()).users
      ensures !ok ==> items == old(items) && db.file == old(db.file)
      ensures ok ==>
        var email := user.value;
        var order := MakeOrder(old(db.Read()).users[email].orders, old(items), shippingAddress, email, date);
        && db.file == Database.Update(old(db.file), CreateOrderFn(email, order), writeSucceeds).0
        && items == []
    {
      if user.None? {
        return false;
      }
      var email := user.value;
      var data := db.Read();
      if email !in data.users {
        return false;
      }
      var order := MakeOrder(data.users[email].orders, items, shippingAddress, email, date);
      var _ := db.UpdateDatabase(CreateOrderFn(email, order), writeSucceeds);
      Dispatch(ClearCart);
      ok := true;
    }

    /** Lines 134-140. */
    method GetOrders() returns (orders: seq<Order>)
      ensures orders == if user.Some? && user.value in db.Read().users then db.Read().users[user.value].orders else []
    {
      if user.None? {
        return [];
      }
      var data := db.Read();
      orders := if user.value in data.users then data.users[user.value].orders else [];
    }

    /** Lines 142-148. */
    method GetUserAddresses() returns (addresses: seq<Address>)
      ensures addresses == if user.Some? && user.value in db.Read().users then db.Read().users[user.value].addresses else []
    {
      if user.None? {
        return [];
      }
      var data := db.Read();
      addresses := if user.value in data.users then data.users[user.value].addresses else [];
    }

    /** Lines 150-164; `ok` is false where the source throws for want of a user. */
    method AddUserAddress(address: Address, writeSucceeds: bool) returns (ok: bool)
      modifies db
      ensures ok <==> user.Some?
      ensures !ok ==> db.file == old(db.file)
      ensures ok ==> db.file == Database.Update(old(db.file), AddAddressFn(user.value, address), writeSucceeds).0
    {
      if user.None? {
        return false;
      }
      var _ := db.UpdateDatabase(AddAddressFn(user.value, address), writeSucceeds);
      ok := true;
    }
  }

  // ---------------------------------------------------------------------------
  // Line 42: the in-place increment on a shallow copy

  /** A cart line as a shared object: the reducer's shallow copy keeps these objects. */
  class CartLine {
    const id: string
    const name: string
    const price: int
    const selectedSize: Option<string>
    const selectedColor: Option<string>
    const images: seq<string>
    var quantity: int

    constructor (item: CartItem)
      ensures Item() == item
    {
      id, name, price := item.id, item.name, item.price;
      selectedSize, selectedColor, images := item.selectedSize, item.selectedColor, item.images;
      quantity := item.quantity;
    }

    function Item(): CartItem
      reads this
    {
      CartItem(id, name, price, quantity, selectedSize, selectedColor, images)
    }
  }

  function Items(lines: seq<CartLine>): seq<CartItem>
    reads set l | l in lines
  {
    seq(|lines|, i reads lines requires 0 <= i < |lines| => lines[i].Item())
  }

  predicate DistinctLines(lines: seq<CartLine>) {
    forall i, j :: 0 <= i < j < |lines| ==> lines[i] != lines[j]
  }

  /**
   * ADD_TO_CART as the source runs it: for a line already present, the copy
   * `[...state.items]` holds the same objects, and `quantity += 1` changes the line
   * that the previous state also holds.
   */
  method AddToCartInPlace(lines: seq<CartLine>, payload: CartItem) returns (next: seq<CartLine>)
    requires DistinctLines(lines)
    modifies set l | l in lines
    ensures Items(next) == Reduce(old(Items(lines)), AddToCart(payload))
    ensures LineOf(old(Items(lines)), payload).Some? ==> next == lines
    ensures LineOf(old(Items(lines)), payload).None? ==>
      Items(lines) == old(Items(lines)) && next[..|lines|] == lines && |next| == |lines| + 1
  {
    var index := LineOf(Items(lines), payload);
    if index.Some? {
      var k := index.value;
      ghost var before := Items(lines);
      var newItems := lines;
      newItems[k].quantity := newItems[k].quantity + 1;
      next := newItems;
      assert forall m :: 0 <= m < |lines| && m != k ==> lines[m].Item() == before[m];
    } else {
      var line := new CartLine(payload.(quantity := 1));
      next := lines + [line];
      assert Items(next) == Items(lines) + [line.Item()];
    }
  }

  /**
   * React may run a reducer twice on the same state (Strict Mode in development).
   * With the in-place increment the merged line then gains 2 instead of 1.
   */
  method AddToCartTwiceInPlace(lines: seq<CartLine>, payload: CartItem) returns (next: seq<CartLine>)
    requires DistinctLines(lines) && LineOf(Items(lines), payload).Some?
    modifies set l | l in lines
    ensures next == lines
    ensures var k := LineOf(old(Items(lines)), payload).value;
      && Items(next)[k].quantity == old(Items(lines))[k].quantity + 2
      && Items(next) != Reduce(old(Items(lines)), AddToCart(payload))
  {
    ghost var before := Items(lines);
    var k := LineOf(before, payload).value;
    var first := AddToCartInPlace(lines, payload);
    assert Items(lines)[k].quantity == before[k].quantity + 1;
    assert SameLine(Items(lines)[k], payload);
    assert forall m :: 0 <= m < k ==> Items(lines)[m] == before[m];
    next := AddToCartInPlace(lines, payload);
    assert Items(next)[k].quantity != Reduce(before, AddToCart(payload))[k].quantity;
  }

  /** The pure reducer: a merged line is a new object and the previous state's lines stay as they were. */
  method AddToCartCopying(lines: seq<CartLine>, payload: CartItem) returns (next: seq<CartLine>)
    ensures Items(next) == Reduce(Items(lines), AddToCart(payload))
  {
    var index := LineOf(Items(lines), payload);
    if index.Some? {
      var k := index.value;
      var item := lines[k].Item();
      var line := new CartLine(item.(quantity := item.quantity + 1));
      next := lines[k := line];
      assert forall m :: 0 <= m < |lines| && m != k ==> next[m] == lines[m];
    } else {
      var line := new CartLine(payload.(quantity := 1));
      next := lines + [line];
      assert Items(next) == Items(lines) + [line.Item()];
    }
  }
}
