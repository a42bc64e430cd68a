/** The admin order ledger of src/lib/adminStorage.ts. */
module AdminStorage {
  import opened Wrappers
  import opened StoreTypes
  import Database

  /** Lines 9-14. */
  function SaveAdminOrdersTransform(orders: seq<Order>, d: Store): Store {
    d.(adminOrders := orders)
  }

  /** Lines 16-21. */
  function AddAdminOrderTransform(order: Order, d: Store): Store {
    d.(adminOrders := d.adminOrders + [order])
  }

  function SaveAdminOrdersFn(orders: seq<Order>): Store -> Option<Store> {
    d => Some(SaveAdminOrdersTransform(orders, d))
  }

  function AddAdminOrderFn(order: Order): Store -> Option<Store> {
    d => Some(AddAdminOrderTransform(order, d))
  }

  /** Lines 4-7: the ledger as read, or `[]` when the file cannot be read. */
  method GetAdminOrders(db: Database.StoreFile) returns (orders: seq<Order>)
    ensures orders == db.Read().adminOrders
    ensures db.file.Unreadable? ==> orders == []
  {
    var data := db.Read();
    orders := data.adminOrders;
  }

  method SaveAdminOrders(db: Database.StoreFile, orders: seq<Order>, writeSucceeds: bool)
    modifies db
    ensures db.file == Database.Update(old(db.file), SaveAdminOrdersFn(orders), writeSucceeds).0
  {
    var _ := db.UpdateDatabase(SaveAdminOrdersFn(orders), writeSucceeds);
  }

  method AddAdminOrder(db: Database.StoreFile, order: Order, writeSucceeds: bool)
    modifies db
    ensures db.file == Database.Update(old(db.file), AddAdminOrderFn(order), writeSucceeds).0
  {
    var _ := db.UpdateDatabase(AddAdminOrderFn(order), writeSucceeds);
  }

  /** Saving replaces the whole ledger; users and administrators stay as they were. */
  lemma SaveReplacesLedger(orders: seq<Order>, d: Store)
    ensures var d' := SaveAdminOrdersTransform(orders, d);
      d'.adminOrders == orders && d'.users == d.users && d'.adminUsers == d.adminUsers
  {
  }

  /** Adding puts the order last and grows the ledger by one; users and administrators stay. */
  lemma AddAppends(order: Order, d: Store)
    ensures var d' := AddAdminOrderTransform(order, d);
      && |d'.adminOrders| == |d.adminOrders| + 1
      && d'.adminOrders[|d.adminOrders|] == order
      && d'.adminOrders[..|d.adminOrders|] == d.adminOrders
      && d'.users == d.users && d'.adminUsers == d.adminUsers
  {
  }

  /** Through a successful write, getAdminOrders afterwards sees the appended ledger. */
  lemma AddThenGet(f: Database.DbFile, order: Order)
    ensures var (f', _) := Database.Update(f, AddAdminOrderFn(order), true);
      Database.ReadDatabase(f').adminOrders == Database.ReadDatabase(f).adminOrders + [order]
  {
  }
}
