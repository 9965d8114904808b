/** The rows, enumerations and transition tables every service shares. */
module Domain {

  type Id = nat
  type Count = n: nat | 1 <= n witness 1

  datatype Option<+T> = None | Some(value: T)

  /** A refused request throws, its transaction rolls back and nothing is written. */
  datatype Reply<+T> = Refused | Accepted(value: T)

  datatype Role = Admin | Customer | Driver
  datatype UserStatus = Active | Suspended | PendingVerification
  datatype Zone = Standard | ColdStorage | HeavyDuty
  datatype SlotStatus = Available | Occupied | Reserved | Maintenance
  datatype Category = Furniture | ColdFood | GeneralElectronics | Textile
  datatype VehicleType = Van | BoxTruckSmall | ReeferTruck | WingBoxLarge
  datatype VehicleStatus = Available | InService | Maintenance
  datatype OrderType = Pickup | Delivery
  datatype InvoiceStatus = Unpaid | PendingPayment | PendingVerification | Paid | Overdue | Cancelled
  datatype PaymentStatus = NotStarted | Submitted | UnderReview | Verified | Rejected | Failed

  datatype GoodsStatus =
    | Draft | PendingPickup | InTransitInbound | Inspecting | Stored
    | PendingDelivery | InTransitOutbound | Delivered | Cancelled

  datatype OrderStatus =
    | PendingAssignment | DriverAssigned | EnRoutePickup | PickedUp | InTransit
    | ArrivedDestination | Delivered | Confirmed | Delayed | Cancelled

  datatype Actor = Actor(id: Id, role: Role)

  datatype User = User(role: Role, status: UserStatus, licenseExpiry: Option<int>)

  /** `coldByDefault`: the facility's name or zones make an unlabelled rental a cold one. */
  datatype Warehouse = Warehouse(active: bool, coldByDefault: bool, used: int)

  /** `capacity` and `used` are in 0.01 m3, the scale of their columns. */
  datatype Slot = Slot(warehouse: Id, zone: Zone, capacity: nat, used: int, status: SlotStatus)

  datatype Goods = Goods(
    owner: Id, warehouse: Id, slot: Option<Id>, status: GoodsStatus,
    volume: nat, weight: nat, quantity: nat, category: Category, requiresCold: bool)
  {
    predicate Cold() { requiresCold || category == ColdFood }
  }

  /** Limits are in 0.01 m3 and 0.01 kg, the temperature in 0.01 degrees. */
  datatype Vehicle = Vehicle(
    kind: VehicleType, maxVolume: nat, maxWeight: nat, refrigerated: bool,
    minTemp: Option<int>, status: VehicleStatus)

  /** `items` are the order item rows: packages claimed from each good. */
  datatype Order = Order(
    kind: OrderType, customer: Id, driver: Option<Id>, vehicle: Option<Id>,
    volume: int, weight: int, reefer: bool, status: OrderStatus, items: map<Id, nat>)
  {
    function CargoOf(): Cargo { Cargo(reefer, if reefer then Some(-1800) else None, volume, weight) }
  }

  datatype Cargo = Cargo(needsReefer: bool, requiredTemp: Option<int>, volume: int, weight: int)

  datatype Payment = Payment(amount: int, status: PaymentStatus)

  /** An invoice with the single rental item it was issued for; newest payment first. */
  datatype Invoice = Invoice(
    customer: Id, warehouse: Id, zone: Zone, volume: nat, months: nat, issued: int, due: int,
    subtotal: int, penaltyFee: int, totalAmount: int, status: InvoiceStatus, payments: seq<Payment>)

  datatype State = State(
    goods: map<Id, Goods>, slots: map<Id, Slot>, houses: map<Id, Warehouse>, orders: map<Id, Order>,
    vehicles: map<Id, Vehicle>, users: map<Id, User>, invoices: map<Id, Invoice>)

  function VolumeOf(g: Goods): int { g.volume }

  function WeightOf(g: Goods): int { g.weight }

  /** The goods state machine. */
  predicate GoodsMay(s: GoodsStatus, t: GoodsStatus) {
    match s
    case Draft => t.PendingPickup? || t.Cancelled?
    case PendingPickup => t.InTransitInbound? || t.Cancelled? || t.Draft?
    case InTransitInbound => t.Inspecting? || t.PendingPickup?
    case Inspecting => t.Stored? || t.Cancelled? || t.InTransitInbound?
    case Stored => t.PendingDelivery? || t.Stored?
    case PendingDelivery => t.InTransitOutbound? || t.Stored?
    case InTransitOutbound => t.Delivered? || t.PendingDelivery?
    case Delivered => false
    case Cancelled => false
  }

  predicate MaySetGoods(role: Role, t: GoodsStatus) {
    match role
    case Admin => true
    case Customer => t.PendingPickup? || t.PendingDelivery? || t.Cancelled?
    case Driver => t.InTransitInbound? || t.InTransitOutbound? || t.Delivered?
  }

  /** The delivery-order state machine. */
  predicate OrderMay(s: OrderStatus, t: OrderStatus) {
    match s
    case PendingAssignment => t.DriverAssigned? || t.Cancelled?
    case DriverAssigned => t.EnRoutePickup? || t.PendingAssignment? || t.Cancelled?
    case EnRoutePickup => t.PickedUp? || t.Delayed? || t.Cancelled?
    case PickedUp => t.InTransit? || t.Delayed?
    case InTransit => t.ArrivedDestination? || t.Delayed?
    case ArrivedDestination => t.Delivered? || t.Delayed?
    case Delivered => t.Confirmed?
    case Delayed => t.EnRoutePickup? || t.PickedUp? || t.InTransit? || t.ArrivedDestination? || t.Delivered? ||
      t.Cancelled?
    case Confirmed => false
    case Cancelled => false
  }

  predicate MaySetOrder(role: Role, t: OrderStatus, kind: OrderType) {
    match role
    case Admin => true
    case Customer => kind.Delivery? && (t.Confirmed? || t.Cancelled?)
    case Driver =>
      t.EnRoutePickup? || t.PickedUp? || t.InTransit? || t.ArrivedDestination? || t.Delayed?
      || (kind.Delivery? && t.Delivered?)
  }

  /** The five statuses in which an order holds its vehicle and driver. */
  predicate Dispatched(s: OrderStatus) {
    s.DriverAssigned? || s.EnRoutePickup? || s.PickedUp? || s.InTransit? || s.ArrivedDestination?
  }

  /** The seven statuses in which an order reserves packages. */
  predicate Reserving(s: OrderStatus) {
    Dispatched(s) || s.PendingAssignment? || s.Delayed?
  }

  /** Goods that take up rented space. */
  predicate Occupying(s: GoodsStatus) {
    !s.Cancelled? && !s.Delivered?
  }

  /** The account a request acts for: only an Admin may name another one. */
  function OnBehalf(actor: Actor, named: Option<Id>): Id {
    if actor.role == Admin && named.Some? then named.value else actor.id
  }
}
