/** The entities of the dashboard (src/types/index.ts). Amounts of money
    and ratings are `real`; timestamps are ISO-8601 strings. */
module Types {
  import opened Wrappers

  /** UserRole */
  datatype UserRole = ADMIN | SUPPORT | FINANCE

  /** AdminUser: the signed-in principal. */
  datatype AdminUser = AdminUser(
    id: string,
    email: string,
    name: string,
    role: UserRole,
    avatar: Option<string>,
    lastLogin: string,
    createdAt: string)

  /** User.status */
  datatype UserStatus = Active | Blocked | Pending

  /** The string the source uses for a user status. */
  function UserStatusName(s: UserStatus): string
  {
    match s
    case Active => "active"
    case Blocked => "blocked"
    case Pending => "pending"
  }

  datatype User = User(
    id: string,
    email: string,
    name: string,
    phone: string,
    avatar: Option<string>,
    status: UserStatus,
    walletBalance: real,
    totalOrders: int,
    createdAt: string,
    lastActive: string)

  /** Partner.status */
  datatype PartnerStatus = Pending | Approved | Rejected | Disabled

  function PartnerStatusName(s: PartnerStatus): string
  {
    match s
    case Pending => "pending"
    case Approved => "approved"
    case Rejected => "rejected"
    case Disabled => "disabled"
  }

  datatype DocumentType = License | Identity | Tax | Other

  datatype PartnerDocument = PartnerDocument(
    id: string,
    docType: DocumentType,
    name: string,
    url: string,
    verified: bool,
    uploadedAt: string)

  datatype Partner = Partner(
    id: string,
    businessName: string,
    ownerName: string,
    email: string,
    phone: string,
    logo: Option<string>,
    address: string,
    status: PartnerStatus,
    rating: real,
    totalOrders: int,
    revenue: real,
    commissionRate: real,
    documents: seq<PartnerDocument>,
    createdAt: string)

  datatype MenuItem = MenuItem(
    id: string,
    partnerId: string,
    name: string,
    description: string,
    price: real,
    category: string,
    image: Option<string>,
    isAvailable: bool,
    isOutOfStock: bool,
    createdAt: string)

  /** OrderStatus */
  datatype OrderStatus =
    | Pending
    | Confirmed
    | Preparing
    | Ready
    | PickedUp
    | Delivered
    | Cancelled
    | Refunded

  function OrderStatusName(s: OrderStatus): string
  {
    match s
    case Pending => "pending"
    case Confirmed => "confirmed"
    case Preparing => "preparing"
    case Ready => "ready"
    case PickedUp => "picked_up"
    case Delivered => "delivered"
    case Cancelled => "cancelled"
    case Refunded => "refunded"
  }

  datatype OrderItem = OrderItem(
    id: string,
    menuItemId: string,
    name: string,
    quantity: int,
    price: real,
    total: real)

  datatype OrderTimeline = OrderTimeline(status: OrderStatus, timestamp: string, note: Option<string>)

  datatype PaymentMethod = Card | Wallet | Cash

  datatype PaymentStatus = Pending | Paid | Refunded

  datatype Order = Order(
    id: string,
    userId: string,
    userName: string,
    partnerId: string,
    partnerName: string,
    deliveryPartnerId: Option<string>,
    deliveryPartnerName: Option<string>,
    items: seq<OrderItem>,
    subtotal: real,
    deliveryFee: real,
    tax: real,
    discount: real,
    total: real,
    status: OrderStatus,
    paymentMethod: PaymentMethod,
    paymentStatus: PaymentStatus,
    deliveryAddress: string,
    notes: Option<string>,
    timeline: seq<OrderTimeline>,
    createdAt: string,
    updatedAt: string)

  datatype DiscountType = Percentage | Fixed

  datatype TargetType = AllTargets | UserTarget | PartnerTarget

  datatype Coupon = Coupon(
    id: string,
    code: string,
    description: string,
    discountType: DiscountType,
    discountValue: real,
    minOrderValue: real,
    maxDiscount: Option<real>,
    usageLimit: int,
    usedCount: int,
    targetType: TargetType,
    targetIds: Option<seq<string>>,
    validFrom: string,
    validUntil: string,
    isActive: bool)

  /** Distinct statuses have distinct names, and none is called "all",
      the value the pages use for "no status filter". */
  lemma StatusNamesDistinct()
    ensures forall a, b :: UserStatusName(a) == UserStatusName(b) ==> a == b
    ensures forall a, b :: PartnerStatusName(a) == PartnerStatusName(b) ==> a == b
    ensures forall a, b :: OrderStatusName(a) == OrderStatusName(b) ==> a == b
    ensures forall a :: UserStatusName(a) != "all"
    ensures forall a :: PartnerStatusName(a) != "all"
    ensures forall a :: OrderStatusName(a) != "all"
  {
  }
}
