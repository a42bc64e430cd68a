/** The records of the user database, src/lib/databaseUtils.ts lines 6-58. */
module StoreTypes {
  import opened Wrappers

  datatype Address = Address(
    fullName: string,
    streetAddress: string,
    city: string,
    state: string,
    zipCode: string,
    country: string)

  /** A cart line; prices are integers (cents) and an absent option is `None`. */
  datatype CartItem = CartItem(
    id: string,
    name: string,
    price: int,
    quantity: int,
    selectedSize: Option<string>,
    selectedColor: Option<string>,
    images: seq<string>)

  /** `date` is the ISO timestamp chosen by the caller. */
  datatype Order = Order(
    id: int,
    items: seq<CartItem>,
    total: int,
    date: string,
    shippingAddress: Address,
    userEmail: string)

  datatype Role = User | Admin

  datatype UserData = UserData(
    email: string,
    username: string,
    password: string,
    role: Role,
    orders: seq<Order>,
    cart: seq<CartItem>,
    addresses: seq<Address>,
    name: string,
    surname: string,
    phoneNumber: string)

  /** An administrator record; its role is always "admin". */
  datatype AdminUserData = AdminUserData(email: string, username: string, password: string)

  /** `DatabaseStructure`: users and administrators keyed by email, and the admin order ledger. */
  datatype Store = Store(users: map<string, UserData>, adminUsers: map<string, AdminUserData>, adminOrders: seq<Order>)

  const EmptyStore := Store(map[], map[], [])
}
