/** The database records the pages work with (src/lib/supabase.ts), the
    enumerations behind their status fields, and the commands the pages send
    to the cart store. Prices, totals and stock are whole rupiah / units. */
module Entities {
  import opened Seqs

  datatype Product = Product(
    id: string,
    name: string,
    description: string,
    price: int,
    imageUrl: string,
    category: string,
    stock: int,
    tags: seq<string>,
    isFeatured: bool,
    isLimitedStock: bool,
    barcode: Option<string>,
    createdAt: string,
    updatedAt: string)

  datatype Customer = Customer(
    id: string,
    name: string,
    phone: string,
    email: Option<string>,
    address: string,
    createdAt: string,
    updatedAt: string)

  datatype PaymentMethod = Dp | Cod | Cash | Transfer
  datatype PaymentStatus = PaymentPending | DpPaid | Paid
  datatype OrderStatus = OrderPending | Processing | Shipped | Delivered | Cancelled
  datatype Role = Admin | Manager | Employee

  /** the strings the database stores for each enumeration value */
  function PaymentMethodName(m: PaymentMethod): string {
    match m
    case Dp => "dp"
    case Cod => "cod"
    case Cash => "cash"
    case Transfer => "transfer"
  }

  function PaymentStatusName(s: PaymentStatus): string {
    match s
    case PaymentPending => "pending"
    case DpPaid => "dp_paid"
    case Paid => "paid"
  }

  function OrderStatusName(s: OrderStatus): string {
    match s
    case OrderPending => "pending"
    case Processing => "processing"
    case Shipped => "shipped"
    case Delivered => "delivered"
    case Cancelled => "cancelled"
  }

  function RoleName(r: Role): string {
    match r
    case Admin => "admin"
    case Manager => "manager"
    case Employee => "employee"
  }

  /** the role a role string names, if any */
  function ParseRole(s: string): (r: Option<Role>)
    ensures r.Some? ==> RoleName(r.value) == s
    ensures r.None? ==> forall role: Role :: RoleName(role) != s
  {
    if s == "admin" then Some(Admin)
    else if s == "manager" then Some(Manager)
    else if s == "employee" then Some(Employee)
    else None
  }

  datatype OrderItem = OrderItem(
    productId: string,
    productName: string,
    quantity: int,
    price: int,
    total: int)

  datatype User = User(
    id: string,
    email: string,
    role: Role,
    name: string,
    createdAt: string)

  datatype ActivityLog = ActivityLog(
    id: string,
    userId: string,
    action: string,
    createdAt: string)

  /** A cart line as the cart store hands it to the pages: a snapshot of the
      product taken when it was added, and the quantity */
  datatype CartItem = CartItem(product: Product, quantity: int)

  /** The operations the pages invoke on the cart store. The store itself is
      not part of this model, so a command is recorded, not carried out. */
  datatype CartCommand =
    | AddItem(product: Product, quantity: int)
    | UpdateQuantity(productId: string, quantity: int)
    | RemoveItem(productId: string)
    | ClearCart
}
