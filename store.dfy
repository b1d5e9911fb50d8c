/**
 * The database the backend services work on, as one object whose tables are
 * maps from row id to row. Prices and totals are integer cents (Prisma's
 * `Decimal` is exact, so this loses nothing); generated ids, timestamps and
 * JSON metadata columns are not represented.
 */
module Store {
  import opened Common

  type Id = string

  datatype Role = Client | Seller | Admin

  datatype OrderStatus = Pending | Paid | Failed | Cancelled | Shipped | Delivered

  datatype PaymentStatus = PaymentSucceeded | PaymentFailed

  /** The JSON address stored on an order. */
  datatype Address = Address(
    fullName: string, line1: string, line2: Option<string>, postalCode: string,
    city: string, country: string, phone: string)

  /** The card summary kept with an order; it has no field for the full card
      number or the security code. */
  datatype PaymentSummary = PaymentSummary(
    provider: string, cardholderName: string, cardLast4: string,
    expMonth: string, expYear: string)

  /** An order line, with the unit price copied from the product at checkout. */
  datatype OrderLine = OrderLine(productId: Id, quantity: int, unitPrice: int)

  datatype Order = Order(
    userId: Id, status: OrderStatus, total: int,
    shippingAddress: Address, billingAddress: Address,
    paymentSummary: PaymentSummary, items: seq<OrderLine>)

  /** The single payment row of an order (the payment table is unique on
      `orderId`, so it is keyed by the order id here). */
  datatype Payment = Payment(provider: string, status: PaymentStatus, metadata: map<string, string>)

  /** A product variant; `sizeKey` is the `value` of the size row it points
      to (that column is unique, so it identifies the row as well as the
      row's id does). */
  datatype Variant = Variant(sizeValue: string, sizeKey: Option<string>, stock: int)

  datatype Product = Product(
    sku: string, name: string, description: string, price: int, stock: int,
    imageUrl: Option<string>, brandId: Option<Id>, genderId: Option<Id>,
    shoeTypeId: Option<Id>, variants: seq<Variant>)

  /** A user row; `password` holds the bcrypt hash. */
  datatype User = User(
    email: string, password: string, firstName: string, lastName: string,
    role: Role, active: bool)

  /** A user as the services return it: every column but the password
      hash (timestamps are not represented). */
  datatype UserView = UserView(
    id: Id, email: string, firstName: string, lastName: string, role: Role, active: bool)

  function ViewOf(id: Id, u: User): (v: UserView)
    ensures v.id == id && v.email == u.email && v.role == u.role && v.active == u.active
    ensures v.firstName == u.firstName && v.lastName == u.lastName
  {
    UserView(id, u.email, u.firstName, u.lastName, u.role, u.active)
  }

  /** The size table: the label of each row keyed by the row's unique
      normalised value, and the generated id of each row mapped to that
      value. */
  datatype SizeTable = SizeTable(labels: map<string, string>, ids: map<Id, string>)

  /** The table has a row with this id. */
  predicate HasSizeRow(t: SizeTable, id: Id) {
    id in t.ids && t.ids[id] in t.labels
  }

  /** Every id names a row of the table. */
  predicate SizeIdsIndexed(t: SizeTable) {
    forall id :: id in t.ids ==> t.ids[id] in t.labels
  }

  class Db {
    var products: map<Id, Product>
    var sizes: SizeTable
    /** Reference tables: id to name. */
    var brands: map<Id, string>
    var genders: map<Id, string>
    var shoeTypes: map<Id, string>
    /** One cart per user; a cart maps a product id to the line's quantity,
        so there is at most one line per (cart, product). */
    var carts: map<Id, map<Id, int>>
    var orders: map<Id, Order>
    var payments: map<Id, Payment>
    var users: map<Id, User>

    constructor ()
      ensures products == map[] && sizes == SizeTable(map[], map[]) && carts == map[]
      ensures brands == map[] && genders == map[] && shoeTypes == map[]
      ensures orders == map[] && payments == map[] && users == map[]
    {
      products := map[];
      sizes := SizeTable(map[], map[]);
      brands := map[];
      genders := map[];
      shoeTypes := map[];
      carts := map[];
      orders := map[];
      payments := map[];
      users := map[];
    }

    /** Every payment belongs to an existing order. */
    predicate PaymentsOfOrders()
      reads this
    {
      payments.Keys <= orders.Keys
    }

    /** No product has negative stock. */
    predicate StockNonNegative()
      reads this
    {
      forall id :: id in products ==> products[id].stock >= 0
    }
  }

  /** The enum names Prisma stores. */
  function RoleName(r: Role): string {
    match r
    case Client => "CLIENT"
    case Seller => "SELLER"
    case Admin => "ADMIN"
  }

  function StatusName(s: OrderStatus): string {
    match s
    case Pending => "PENDING"
    case Paid => "PAID"
    case Failed => "FAILED"
    case Cancelled => "CANCELLED"
    case Shipped => "SHIPPED"
    case Delivered => "DELIVERED"
  }

  /** Reading a role name back; `None` for any other string. */
  function ParseRole(s: string): (r: Option<Role>)
    ensures r.Some? ==> RoleName(r.value) == s
  {
    if s == "CLIENT" then Some(Client)
    else if s == "SELLER" then Some(Seller)
    else if s == "ADMIN" then Some(Admin)
    else None
  }

  function ParseStatus(s: string): (r: Option<OrderStatus>)
    ensures r.Some? ==> StatusName(r.value) == s
  {
    if s == "PENDING" then Some(Pending)
    else if s == "PAID" then Some(Paid)
    else if s == "FAILED" then Some(Failed)
    else if s == "CANCELLED" then Some(Cancelled)
    else if s == "SHIPPED" then Some(Shipped)
    else if s == "DELIVERED" then Some(Delivered)
    else None
  }

  lemma RoleNameRoundTrip(r: Role)
    ensures ParseRole(RoleName(r)) == Some(r)
  {
  }

  lemma StatusNameRoundTrip(s: OrderStatus)
    ensures ParseStatus(StatusName(s)) == Some(s)
  {
  }
}
