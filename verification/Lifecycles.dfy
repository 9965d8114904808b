/** What the transition tables and role checks amount to: one step forward or back along the life of
    goods and orders, cancelling before it is too late, and delays on the road. */
module Lifecycles {
  import opened Domain
  import opened Inventory
  import opened Dispatch
  import opened System

  /** Where goods are on their way from registration to delivery. */
  function GoodsStage(s: GoodsStatus): int {
    match s
    case Draft => 0
    case PendingPickup => 1
    case InTransitInbound => 2
    case Inspecting => 3
    case Stored => 4
    case PendingDelivery => 5
    case InTransitOutbound => 6
    case Delivered => 7
    case Cancelled => -10
  }

  /** Goods go one stage on, or one back unless they are on a rack or delivered, are moved within the
      racks, or are cancelled before they are stored and not on the road. */
  lemma GoodsMoveByOneStage(s: GoodsStatus, t: GoodsStatus)
    ensures GoodsMay(s, t) <==>
      || GoodsStage(t) == GoodsStage(s) + 1
      || (GoodsStage(t) == GoodsStage(s) - 1 && !s.Stored? && !s.Delivered?)
      || (s.Stored? && t.Stored?)
      || (t.Cancelled? && GoodsStage(s) in {0, 1, 3})
  {
  }

  /** Where an order is on its way from request to confirmation; DELAYED and CANCELLED are beside it. */
  function OrderStage(s: OrderStatus): int {
    match s
    case PendingAssignment => 0
    case DriverAssigned => 1
    case EnRoutePickup => 2
    case PickedUp => 3
    case InTransit => 4
    case ArrivedDestination => 5
    case Delivered => 6
    case Confirmed => 7
    case Delayed => -10
    case Cancelled => -20
  }

  /** An order goes one stage on, or gives up its assignment; it may be delayed on the road and go on at
      any stage of it; it may be cancelled until its goods are picked up, or when delayed. */
  lemma OrdersMoveByOneStage(s: OrderStatus, t: OrderStatus)
    ensures OrderMay(s, t) <==>
      || OrderStage(t) == OrderStage(s) + 1
      || (OrderStage(s) == 1 && OrderStage(t) == 0)
      || (t.Delayed? && 2 <= OrderStage(s) <= 5)
      || (s.Delayed? && 2 <= OrderStage(t) <= 6)
      || (t.Cancelled? && (0 <= OrderStage(s) <= 2 || s.Delayed?))
  {
  }

  /** An order holds its fleet from assignment to arrival, and its packages until it is over. */
  lemma HoldingStages(s: OrderStatus)
    ensures Dispatched(s) <==> 1 <= OrderStage(s) <= 5
    ensures Reserving(s) <==> 0 <= OrderStage(s) <= 5 || s.Delayed?
  {
  }

  /** Goods take up rented space from registration until they are delivered or cancelled. */
  lemma OccupyingStages(s: GoodsStatus)
    ensures Occupying(s) <==> 0 <= GoodsStage(s) <= 6
  {
  }

  // ---- who may move what ----

  /** A customer sends goods in, calls a transport back, has them delivered, or cancels. */
  predicate CustomerMoves(s: GoodsStatus, t: GoodsStatus) {
    || (t.PendingPickup? && (s.Draft? || s.InTransitInbound?))
    || (t.PendingDelivery? && (s.Stored? || s.InTransitOutbound?))
    || (t.Cancelled? && (s.Draft? || s.PendingPickup? || s.Inspecting?))
  }

  /** A driver takes goods on the road or back on it, and delivers. */
  predicate DriverMoves(s: GoodsStatus, t: GoodsStatus) {
    || (t.InTransitInbound? && (s.PendingPickup? || s.Inspecting?))
    || (t.InTransitOutbound? && s.PendingDelivery?)
    || (t.Delivered? && s.InTransitOutbound?)
  }

  /** A status change other than a put-away is accepted exactly from an Admin for any step, from a driver
      or from the owner for theirs; then one row changes, and keeps its slot unless it is over. */
  lemma LeavingIsAccepted(st: State, call: Call)
    requires call.request.DoUpdateStatus? && !call.request.status.Stored?
    ensures var id, t := call.request.id, call.request.status;
      Apply(st, call).Accepted?
      <==> id in st.goods && match call.actor.role
           case Admin => GoodsMay(st.goods[id].status, t)
           case Customer => st.goods[id].owner == call.actor.id && CustomerMoves(st.goods[id].status, t)
           case Driver => DriverMoves(st.goods[id].status, t)
  {
  }

  lemma LeavingChangesOneRow(st: State, call: Call)
    requires call.request.DoUpdateStatus? && !call.request.status.Stored? && Apply(st, call).Accepted?
    ensures var id, t := call.request.id, call.request.status; var g := st.goods[id];
      After(st, call).goods
      == st.goods[id := if t.Delivered? || t.Cancelled? then g.(status := t, slot := None) else g.(status := t)]
  {
  }

  /** A plain order update, with no vehicle or driver given, is accepted exactly from an Admin for any
      step, from the customer to confirm or cancel a delivery of theirs, from a driver along the road. */
  lemma PlainUpdateIsAccepted(st: State, call: Call)
    requires call.request.DoUpdateOrder? && call.request.vehicle.Absent? && call.request.driver.Absent?
    requires !call.request.to.DriverAssigned?
    ensures var id, t := call.request.id, call.request.to;
      Apply(st, call).Accepted?
      <==> id in st.orders && OrderMay(st.orders[id].status, t) && match call.actor.role
           case Admin => true
           case Customer =>
             st.orders[id].customer == call.actor.id && st.orders[id].kind.Delivery? && (t.Confirmed? || t.Cancelled?)
           case Driver => 2 <= OrderStage(t) <= (if st.orders[id].kind.Delivery? then 6 else 5) || t.Delayed?
  {
    if call.request.id in st.orders {
      PlainUpdateNeedsNoFleet(st, call.request.id, call.request.to, call.now);
    }
  }

  lemma PlainUpdateNeedsNoFleet(st: State, id: Id, t: OrderStatus, now: int)
    requires id in st.orders && !t.DriverAssigned?
    ensures FleetAllows(st, id, t, Absent, Absent, now)
  {
  }
}
