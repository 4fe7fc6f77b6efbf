/** The rows of the storefront's relational tables (users, columns, products,
    orders, statistics, notifications), their enumerations, their column
    defaults and their uniqueness constraints.

    Money is a whole number of cents (`decimal(p, 2)` columns hold hundredths).
    Timestamps are values of an abstract clock. */
module Schema {
  import opened Common

  type Timestamp = int

  /** An amount in hundredths of the currency unit. */
  type Cents = int

  /** `mysqlEnum("role", ["user", "admin"])`. */
  datatype Role = UserRole | AdminRole

  /** `mysqlEnum("status", ["pending", "completed", "failed", "refunded"])`. */
  datatype OrderStatus = Pending | Completed | Failed | Refunded

  /** `mysqlEnum("type", ["new_order", "new_user", "payment_failed", "system_alert"])`. */
  datatype NotificationType = NewOrder | NewUser | PaymentFailed | SystemAlert

  function RoleName(r: Role): string {
    match r
    case UserRole => "user"
    case AdminRole => "admin"
  }

  function StatusName(s: OrderStatus): string {
    match s
    case Pending => "pending"
    case Completed => "completed"
    case Failed => "failed"
    case Refunded => "refunded"
  }

  function NotificationTypeName(t: NotificationType): string {
    match t
    case NewOrder => "new_order"
    case NewUser => "new_user"
    case PaymentFailed => "payment_failed"
    case SystemAlert => "system_alert"
  }

  /** The enumeration values are told apart by their names. */
  lemma EnumNamesDistinct()
    ensures forall a: Role, b: Role :: RoleName(a) == RoleName(b) ==> a == b
    ensures forall a: OrderStatus, b: OrderStatus :: StatusName(a) == StatusName(b) ==> a == b
    ensures forall a: NotificationType, b: NotificationType ::
      NotificationTypeName(a) == NotificationTypeName(b) ==> a == b
  {
  }

  /** Default of `users.role`. */
  const DefaultRole := UserRole
  /** Default of `orders.status`. */
  const DefaultOrderStatus := Pending

  datatype User = User(
    id: nat,
    openId: string,
    name: Option<string>,
    email: Option<string>,
    loginMethod: Option<string>,
    role: Role,
    lastSignedIn: Timestamp)

  datatype Column = Column(
    id: nat,
    name: string,
    slug: string,
    icon: Option<string>,
    displayOrder: int,
    isActive: bool)

  datatype Product = Product(
    id: nat,
    columnId: int,
    name: string,
    description: Option<string>,
    image: Option<string>,
    price: Cents,
    stock: int,
    isVisible: bool,
    stripeProductId: Option<string>,
    stripePriceId: Option<string>)

  /** The `metadata` JSON the payment webhook stores with an order. */
  datatype OrderMetadata = OrderMetadata(sessionId: string, customerEmail: Option<string>)

  datatype Order = Order(
    id: nat,
    userId: int,
    productId: int,
    stripePaymentIntentId: Option<string>,
    amount: Cents,
    status: OrderStatus,
    paymentMethod: Option<string>,
    metadata: Option<OrderMetadata>)

  datatype Statistic = Statistic(
    id: nat,
    date: Timestamp,
    totalSales: Cents,
    totalOrders: int,
    activeMembers: int,
    totalVouchers: int,
    securityRate: Cents,
    createdAt: Timestamp)

  datatype Notification = Notification(
    id: nat,
    notificationType: NotificationType,
    recipientEmail: string,
    subject: string,
    content: Option<string>,
    isSent: bool,
    sentAt: Option<Timestamp>)

  // ----------------------------------------------------------------------
  // Column types

  /** The values a `decimal(precision, 2)` column can hold, in hundredths. */
  predicate FitsDecimal(c: Cents, precision: nat) {
    var bound: int := Power10(precision);
    -bound < c < bound
  }

  function Power10(n: nat): (r: nat)
    ensures r >= 1
  {
    if n == 0 then 1 else 10 * Power10(n - 1)
  }

  /** `decimal(10, 2)` (products.price, orders.amount) holds up to 99999999.99. */
  lemma Decimal10Bounds()
    ensures FitsDecimal(9999999999, 10) && !FitsDecimal(10000000000, 10)
    ensures FitsDecimal(-9999999999, 10) && !FitsDecimal(-10000000000, 10)
  {
    assert Power10(10) == 10000000000;
  }

  // ----------------------------------------------------------------------
  // Inserts: what the database fills in for columns left out

  /** Fields of a new column row; the ones with defaults may be left out. */
  datatype ColumnInsert = ColumnInsert(
    name: string, slug: string, icon: Option<string>,
    displayOrder: Field<int>, isActive: Field<bool>)

  /** The row stored for an insert into `columns`: `displayOrder` defaults to
      0 and `isActive` to true. */
  function InsertedColumn(id: nat, v: ColumnInsert): (c: Column)
    ensures c.id == id && c.name == v.name && c.slug == v.slug && c.icon == v.icon
    ensures c.displayOrder == (if v.displayOrder.Defined? then v.displayOrder.value else 0)
    ensures c.isActive == (v.isActive.Undefined? || v.isActive.value)
  {
    Column(id, v.name, v.slug, v.icon,
           match v.displayOrder case Defined(d) => d case Undefined => 0,
           match v.isActive case Defined(a) => a case Undefined => true)
  }

  /** Fields of a new product row; the ones with defaults may be left out. */
  datatype ProductInsert = ProductInsert(
    columnId: int, name: string, description: Option<string>, image: Option<string>,
    price: Cents, stock: Field<int>, isVisible: Field<bool>)

  /** The row stored for an insert into `products`: `stock` defaults to 0,
      `isVisible` to true, the processor references to null. */
  function InsertedProduct(id: nat, v: ProductInsert): (p: Product)
    ensures p.id == id && p.columnId == v.columnId && p.name == v.name && p.price == v.price
    ensures p.description == v.description && p.image == v.image
    ensures p.stock == (if v.stock.Defined? then v.stock.value else 0)
    ensures p.isVisible == (v.isVisible.Undefined? || v.isVisible.value)
    ensures p.stripeProductId.None? && p.stripePriceId.None?
  {
    Product(id, v.columnId, v.name, v.description, v.image, v.price,
            match v.stock case Defined(s) => s case Undefined => 0,
            match v.isVisible case Defined(b) => b case Undefined => true,
            None, None)
  }

  /** The row stored for an insert into `notifications`: not yet sent. */
  function InsertedNotification(id: nat, t: NotificationType, recipient: string, subject: string,
                                content: Option<string>): (n: Notification)
    ensures !n.isSent && n.sentAt.None?
    ensures n.notificationType == t && n.recipientEmail == recipient && n.subject == subject
  {
    Notification(id, t, recipient, subject, content, false, None)
  }

  /** The row stored for an insert into `statistics` that gives only its id
      and clock: every counter starts at zero and the security rate at 100. */
  function InsertedStatistic(id: nat, now: Timestamp): (s: Statistic)
    ensures s.totalSales == 0 && s.totalOrders == 0 && s.activeMembers == 0 && s.totalVouchers == 0
    ensures s.securityRate == 10000
    ensures s.date == now && s.createdAt == now
  {
    Statistic(id, now, 0, 0, 0, 0, 10000, now)
  }

  // ----------------------------------------------------------------------
  // Uniqueness constraints

  /** `users.openId` is unique, and so is the primary key. */
  ghost predicate UsersWellFormed(rows: seq<User>, nextId: nat) {
    && (forall i :: 0 <= i < |rows| ==> rows[i].id < nextId)
    && (forall i, j :: 0 <= i < j < |rows| ==> rows[i].id != rows[j].id)
    && (forall i, j :: 0 <= i < j < |rows| ==> rows[i].openId != rows[j].openId)
  }

  /** `columns.slug` is unique, and so is the primary key. */
  ghost predicate ColumnsWellFormed(rows: seq<Column>, nextId: nat) {
    && (forall i :: 0 <= i < |rows| ==> rows[i].id < nextId)
    && (forall i, j :: 0 <= i < j < |rows| ==> rows[i].id != rows[j].id)
    && (forall i, j :: 0 <= i < j < |rows| ==> rows[i].slug != rows[j].slug)
  }

  ghost predicate ProductsWellFormed(rows: seq<Product>, nextId: nat) {
    && (forall i :: 0 <= i < |rows| ==> rows[i].id < nextId && FitsDecimal(rows[i].price, 10))
    && (forall i, j :: 0 <= i < j < |rows| ==> rows[i].id != rows[j].id)
  }

  /** `orders.stripePaymentIntentId` is nullable and unique: no two rows share
      a non-null payment intent (any number of rows may hold null). */
  ghost predicate IntentsUnique(rows: seq<Order>) {
    forall i, j :: 0 <= i < j < |rows| && rows[i].stripePaymentIntentId.Some? ==>
      rows[i].stripePaymentIntentId != rows[j].stripePaymentIntentId
  }

  ghost predicate OrdersWellFormed(rows: seq<Order>, nextId: nat) {
    && (forall i :: 0 <= i < |rows| ==> rows[i].id < nextId && FitsDecimal(rows[i].amount, 10))
    && (forall i, j :: 0 <= i < j < |rows| ==> rows[i].id != rows[j].id)
    && IntentsUnique(rows)
  }

  /** Whether some row already holds the payment intent: an insert carrying
      it would violate the unique key. */
  predicate IntentTaken(rows: seq<Order>, intent: Option<string>) {
    intent.Some? && exists i :: 0 <= i < |rows| && rows[i].stripePaymentIntentId == intent
  }

  /** Number of rows holding a given payment intent. */
  function CountIntent(rows: seq<Order>, intent: string): nat {
    if rows == [] then 0
    else (if rows[|rows| - 1].stripePaymentIntentId == Some(intent) then 1 else 0)
         + CountIntent(rows[..|rows| - 1], intent)
  }

  /** Under the unique key, a payment intent is held by at most one row. */
  lemma {:induction false} CountIntentAtMostOne(rows: seq<Order>, intent: string)
    requires IntentsUnique(rows)
    ensures CountIntent(rows, intent) <= 1
    ensures CountIntent(rows, intent) == 1 <==> IntentTaken(rows, Some(intent))
  {
    if rows != [] {
      var init := rows[..|rows| - 1];
      assert IntentsUnique(init);
      CountIntentAtMostOne(init, intent);
      if rows[|rows| - 1].stripePaymentIntentId == Some(intent) {
        assert !IntentTaken(init, Some(intent));
      } else {
        if IntentTaken(rows, Some(intent)) {
          var i :| 0 <= i < |rows| && rows[i].stripePaymentIntentId == Some(intent);
          assert i < |rows| - 1 && init[i] == rows[i];
        }
      }
    }
  }
}
