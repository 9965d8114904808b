/** What each delivery-order request does to the tables. */
module Dispatch {
  import opened Domain
  import opened Quantities
  import opened Sums
  import Shares
  import opened Fleet

  datatype OrderRequest = OrderRequest(
    kind: OrderType, goodsIds: seq<Id>, items: seq<(Id, Count)>, warehouse: Option<Id>,
    vehicle: Option<Id>, driver: Option<Id>, customer: Option<Id>)

  /** An optional body field of a status update: left out, an empty string, or an id. */
  datatype Field = Absent | Blank | Given(id: Id)
  {
    /** What the checks use. */
    function Target(current: Option<Id>): Option<Id> {
      match this case Absent => current case Blank => None case Given(i) => Some(i)
    }

    /** What the row holds afterwards. */
    function Kept(current: Option<Id>): Option<Id> {
      match this case Given(i) => Some(i) case _ => current
    }
  }

  // ---- reserving packages ----

  function LastQuantities(items: seq<(Id, Count)>): map<Id, nat> {
    if items == [] then map[] else
      var last := items[|items| - 1];
      LastQuantities(items[..|items| - 1])[last.0 := last.1]
  }

  /** Packages claimed from each good: the listed quantities, or everything registered. */
  function Wanted(req: OrderRequest, goods: map<Id, Goods>): map<Id, nat> {
    if req.items != [] then LastQuantities(req.items)
    else map g | g in req.goodsIds && g in goods :: goods[g].quantity
  }

  predicate Distinct(ids: seq<Id>) {
    forall i, j :: 0 <= i < j < |ids| ==> ids[i] != ids[j]
  }

  /** Every requested row is found, exactly once. */
  predicate Listed(req: OrderRequest, goods: map<Id, Goods>) {
    if req.items != [] then LastQuantities(req.items).Keys <= goods.Keys
    else req.goodsIds != [] && Distinct(req.goodsIds) && forall g :: g in req.goodsIds ==> g in goods
  }

  predicate CanInbound(s: GoodsStatus) {
    s.Draft? || s.PendingPickup?
  }

  predicate Ready(kind: OrderType, g: Goods) {
    match kind
    case Pickup => CanInbound(g.status)
    case Delivery => g.status.Stored? && g.slot.Some? && 0 < g.quantity
  }

  function Claims(orders: map<Id, Order>, g: Id, kind: OrderType): map<Id, int> {
    map o | o in orders && orders[o].kind == kind && Reserving(orders[o].status) && g in orders[o].items ::
      orders[o].items[g]
  }

  /** Packages of `g` already claimed by active orders of one type. */
  ghost function ReservedQuantity(orders: map<Id, Order>, g: Id, kind: OrderType): int {
    Sum(Claims(orders, g, kind))
  }

  ghost predicate Claimable(orders: map<Id, Order>, kind: OrderType, g: Id, quantity: int, wanted: int) {
    0 < Max(0, quantity - ReservedQuantity(orders, g, kind)) &&
      wanted <= Max(0, quantity - ReservedQuantity(orders, g, kind))
  }

  // ---- cargo totals ----

  /** `n` packages' part of a measure registered for `quantity` packages. */
  function Share(measure: nat, quantity: nat, n: nat): real {
    (if 0 < quantity then measure as real / quantity as real else measure as real) * n as real
  }

  function VolumeShare(g: Goods, n: nat): real { Share(g.volume, g.quantity, n) }

  function WeightShare(g: Goods, n: nat): real { Share(g.weight, g.quantity, n) }

  ghost function VolumeShares(goods: map<Id, Goods>, items: map<Id, nat>): map<Id, real> {
    map g | g in items && g in goods :: VolumeShare(goods[g], items[g])
  }

  ghost function WeightShares(goods: map<Id, Goods>, items: map<Id, nat>): map<Id, real> {
    map g | g in items && g in goods :: WeightShare(goods[g], items[g])
  }

  function RoundedReal(total: real): int {
    if total < 0.0 then 0 else Nearest(total)
  }

  ghost function Rounded(shares: map<Id, real>): int {
    RoundedReal(Shares.Total(shares))
  }

  predicate AnyCold(goods: map<Id, Goods>, items: map<Id, nat>) {
    exists g :: g in items && g in goods && goods[g].Cold()
  }

  // ---- vehicles and drivers ----

  function OnVehicle(orders: map<Id, Order>, v: Id, except: Option<Id>): set<Id> {
    set o | o in orders && orders[o].vehicle == Some(v) && Dispatched(orders[o].status) && except != Some(o)
  }

  function OnDriver(orders: map<Id, Order>, d: Id, except: Option<Id>): set<Id> {
    set o | o in orders && orders[o].driver == Some(d) && Dispatched(orders[o].status) && except != Some(o)
  }

  /** `validateDriverAndVehicleForOrder`. */
  predicate Eligible(st: State, cargo: Cargo, except: Option<Id>, vehicle: Option<Id>, driver: Option<Id>, now: int) {
    && (vehicle.Some? ==>
          vehicle.value in st.vehicles
          && EvaluateVehicle(st.vehicles[vehicle.value], cargo, |OnVehicle(st.orders, vehicle.value, except)|)
             == Suitability(true, true))
    && (driver.Some? ==>
          driver.value in st.users
          && EvaluateDriver(st.users[driver.value], |OnDriver(st.orders, driver.value, except)|, now)
             == Suitability(true, true))
  }

  function WithVehicle(vehicles: map<Id, Vehicle>, v: Option<Id>, status: VehicleStatus): map<Id, Vehicle> {
    if v.Some? && v.value in vehicles then vehicles[v.value := vehicles[v.value].(status := status)] else vehicles
  }

  // ---- requests ----

  ghost function NewOrder(st: State, req: OrderRequest, c: Id): Order {
    var items := Wanted(req, st.goods);
    Order(req.kind, c, req.driver, req.vehicle,
          Rounded(VolumeShares(st.goods, items)), Rounded(WeightShares(st.goods, items)), AnyCold(st.goods, items),
          if req.driver.Some? then DriverAssigned else PendingAssignment, items)
  }

  predicate Suits(req: OrderRequest, c: Id, g: Goods, wanted: nat) {
    && g.owner == c && Ready(req.kind, g)
    && (req.warehouse.Some? ==> g.warehouse == req.warehouse.value)
    && wanted <= g.quantity
  }

  ghost predicate GoodsAccepted(st: State, req: OrderRequest, c: Id) {
    && Listed(req, st.goods)
    && var items := Wanted(req, st.goods);
       forall g :: g in items ==>
         && Suits(req, c, st.goods[g], items[g])
         && Claimable(st.orders, req.kind, g, st.goods[g].quantity, items[g])
  }

  function Scheduled(goods: map<Id, Goods>, kind: OrderType, items: map<Id, nat>): map<Id, Goods> {
    map g | g in goods ::
      if kind.Pickup? && g in items && goods[g].status.Draft? then goods[g].(status := PendingPickup) else goods[g]
  }

  ghost predicate MayCreate(st: State, id: Id, req: OrderRequest, actor: Actor, now: int) {
    var c := OnBehalf(actor, req.customer);
    && !actor.role.Driver? && id !in st.orders && GoodsAccepted(st, req, c)
    && Eligible(st, NewOrder(st, req, c).CargoOf(), None, req.vehicle, req.driver, now)
    && (req.vehicle.Some? ==> OnVehicle(st.orders, req.vehicle.value, None) == {})
    && (req.driver.Some? ==> OnDriver(st.orders, req.driver.value, None) == {})
  }

  ghost function Created(st: State, id: Id, req: OrderRequest, c: Id): State {
    st.(orders := st.orders[id := NewOrder(st, req, c)],
        goods := Scheduled(st.goods, req.kind, Wanted(req, st.goods)),
        vehicles := WithVehicle(st.vehicles, req.vehicle, InService))
  }

  ghost function CreateOrder(st: State, id: Id, req: OrderRequest, actor: Actor, now: int): Reply<State> {
    if MayCreate(st, id, req, actor, now)
    then Accepted(Created(st, id, req, OnBehalf(actor, req.customer))) else Refused
  }

  /** The goods status that follows an inbound order's new status. */
  function Synced(t: OrderStatus, g: GoodsStatus): GoodsStatus {
    if t.DriverAssigned? || t.EnRoutePickup? then (if g.Draft? then PendingPickup else g)
    else if t.PickedUp? || t.InTransit? then (if g.Draft? || g.PendingPickup? then InTransitInbound else g)
    else if t.Cancelled? then (if g.PendingPickup? || g.InTransitInbound? then Draft else g)
    else g
  }

  function SyncedGoods(goods: map<Id, Goods>, order: Order, t: OrderStatus): map<Id, Goods> {
    map g | g in goods ::
      if order.kind.Pickup? && g in order.items then goods[g].(status := Synced(t, goods[g].status)) else goods[g]
  }

  /** The vehicle and driver an update would leave are complete, suitable and free where it checks them. */
  predicate FleetAllows(st: State, id: Id, t: OrderStatus, vehicle: Field, driver: Field, now: int)
    requires id in st.orders
  {
    var o := st.orders[id];
    var v, d := vehicle.Target(o.vehicle), driver.Target(o.driver);
    && (t.DriverAssigned? ==> v.Some? && d.Some?)
    && (t.DriverAssigned? || vehicle.Given? || driver.Given? ==> Eligible(st, o.CargoOf(), Some(id), v, d, now))
    && (v.Some? && (t.DriverAssigned? || vehicle.Given?) ==> OnVehicle(st.orders, v.value, Some(id)) == {})
    && (d.Some? && (t.DriverAssigned? || driver.Given?) ==> OnDriver(st.orders, d.value, Some(id)) == {})
  }

  ghost predicate MayUpdateOrder(
    st: State, id: Id, t: OrderStatus, vehicle: Field, driver: Field, actor: Actor, now: int)
  {
    && id in st.orders
    && (actor.role.Customer? ==> st.orders[id].customer == actor.id)
    && MaySetOrder(actor.role, t, st.orders[id].kind) && OrderMay(st.orders[id].status, t)
    && FleetAllows(st, id, t, vehicle, driver, now)
  }

  function OrderRow(o: Order, t: OrderStatus, vehicle: Field, driver: Field): Order {
    o.(status := t, driver := driver.Kept(o.driver), vehicle := vehicle.Kept(o.vehicle))
  }

  function OrderUpdated(st: State, id: Id, t: OrderStatus, vehicle: Field, driver: Field): State
    requires id in st.orders
  {
    var o := st.orders[id];
    st.(orders := st.orders[id := OrderRow(o, t, vehicle, driver)],
        vehicles := if t.DriverAssigned? then WithVehicle(st.vehicles, vehicle.Target(o.vehicle), InService)
                    else if t.Delivered? || t.Cancelled?
                    then WithVehicle(st.vehicles, vehicle.Kept(o.vehicle), VehicleStatus.Available)
                    else st.vehicles,
        goods := SyncedGoods(st.goods, o, t))
  }

  ghost function UpdateOrder(st: State, id: Id, t: OrderStatus, vehicle: Field, driver: Field, actor: Actor, now: int)
    : Reply<State>
  {
    if MayUpdateOrder(st, id, t, vehicle, driver, actor, now)
    then Accepted(OrderUpdated(st, id, t, vehicle, driver)) else Refused
  }

  function Manifest(items: map<Id, nat>): map<Id, int> {
    map g | g in items :: items[g]
  }

  function Inspected(goods: map<Id, Goods>, items: map<Id, nat>): map<Id, Goods> {
    map g | g in goods :: if g in items then goods[g].(status := Inspecting) else goods[g]
  }

  /** `counted`: received, damaged and missing packages together. */
  ghost predicate MayReceive(st: State, id: Id, counted: nat, actor: Actor) {
    && actor.role.Admin? && id in st.orders
    && st.orders[id].kind.Pickup? && st.orders[id].status.ArrivedDestination?
    && (forall g :: g in st.orders[id].items && g in st.goods ==> !st.goods[g].status.Cancelled?)
    && counted == Sum(Manifest(st.orders[id].items))
  }

  function Finished(st: State, id: Id): State
    requires id in st.orders
  {
    st.(orders := st.orders[id := st.orders[id].(status := OrderStatus.Delivered)],
        vehicles := WithVehicle(st.vehicles, st.orders[id].vehicle, VehicleStatus.Available))
  }

  function Received(st: State, id: Id): State
    requires id in st.orders
  {
    Finished(st, id).(goods := Inspected(st.goods, st.orders[id].items))
  }

  ghost function ReceiveInbound(st: State, id: Id, counted: nat, actor: Actor): Reply<State> {
    if MayReceive(st, id, counted, actor) then Accepted(Received(st, id)) else Refused
  }

  predicate MaySubmitPod(st: State, id: Id, actor: Actor) {
    id in st.orders && st.orders[id].kind.Delivery? && (actor.role.Customer? ==> st.orders[id].customer == actor.id)
  }

  /** There is no check of the order's status. */
  function SubmitPod(st: State, id: Id, actor: Actor): Reply<State> {
    if MaySubmitPod(st, id, actor) then Accepted(Finished(st, id)) else Refused
  }
}
