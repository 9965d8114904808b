/** Vehicles suit what they carry, and orders under way do not share vehicles or drivers. */
module FleetTheorems {
  import opened Domain
  import opened Fleet
  import opened Dispatch
  import opened Inventory
  import opened Tenancy
  import opened System
  import opened OrderTheorems
  import Shares

  // ---- suitability ----

  /** A vehicle is offered exactly when it is free and suits the cargo. */
  lemma SelectableVehicle(v: Vehicle, o: Order, activeOrders: nat)
    ensures EvaluateVehicle(v, o.CargoOf(), activeOrders) == Suitability(true, true)
       <==> v.status == VehicleStatus.Available && activeOrders == 0 && Carries(v, o.reefer, o.volume, o.weight)
  {
  }

  /** Everything about a vehicle but its status. */
  function Build(v: Vehicle): Vehicle {
    v.(status := InService)
  }

  predicate Carried(vehicles: map<Id, Vehicle>, o: Order) {
    o.vehicle.Some? ==> o.vehicle.value in vehicles && Carries(vehicles[o.vehicle.value], o.reefer, o.volume, o.weight)
  }

  ghost predicate Fitted(st: State) {
    forall o :: o in st.orders ==> Carried(st.vehicles, st.orders[o])
  }

  lemma SameBuildStillCarries(vehicles: map<Id, Vehicle>, after: map<Id, Vehicle>, o: Order)
    requires Carried(vehicles, o)
    requires forall v :: v in vehicles ==> v in after && Build(after[v]) == Build(vehicles[v])
    ensures Carried(after, o)
  {
    if o.vehicle.Some? {
      assert Build(after[o.vehicle.value]) == Build(vehicles[o.vehicle.value]);
    }
  }

  lemma StatusKeepsBuild(vehicles: map<Id, Vehicle>, v: Option<Id>, status: VehicleStatus)
    ensures var after := WithVehicle(vehicles, v, status);
      forall k :: k in vehicles ==> k in after && Build(after[k]) == Build(vehicles[k])
  {
  }

  lemma OrderUpdatedKeepsFitted(st: State, id: Id, t: OrderStatus, vehicle: Field, driver: Field, actor: Actor,
    now: int)
    requires Fitted(st) && MayUpdateOrder(st, id, t, vehicle, driver, actor, now)
    ensures Fitted(OrderUpdated(st, id, t, vehicle, driver))
  {
    var before, after := st.orders[id], OrderUpdated(st, id, t, vehicle, driver);
    StatusKeepsBuild(st.vehicles, vehicle.Target(before.vehicle), InService);
    StatusKeepsBuild(st.vehicles, vehicle.Kept(before.vehicle), VehicleStatus.Available);
    assert Carried(st.vehicles, after.orders[id]) by {
      assert Carried(st.vehicles, before);
      if vehicle.Given? {
        SelectableVehicle(st.vehicles[vehicle.id], before, |OnVehicle(st.orders, vehicle.id, Some(id))|);
      }
    }
    forall o | o in after.orders ensures Carried(after.vehicles, after.orders[o]) {
      SameBuildStillCarries(st.vehicles, after.vehicles, after.orders[o]);
    }
  }

  lemma FinishedKeepsFitted(st: State, id: Id)
    requires Fitted(st) && id in st.orders
    ensures Fitted(Finished(st, id))
  {
    var after := Finished(st, id);
    StatusKeepsBuild(st.vehicles, st.orders[id].vehicle, VehicleStatus.Available);
    forall o | o in after.orders ensures Carried(after.vehicles, after.orders[o]) {
      assert Carried(st.vehicles, st.orders[o]);
      SameBuildStillCarries(st.vehicles, after.vehicles, after.orders[o]);
    }
  }

  lemma CreatedKeepsFitted(st: State, id: Id, req: OrderRequest, actor: Actor, now: int)
    requires Fitted(st) && MayCreate(st, id, req, actor, now)
    ensures Fitted(Created(st, id, req, OnBehalf(actor, req.customer)))
  {
    var c := OnBehalf(actor, req.customer);
    var order, after := NewOrder(st, req, c), Created(st, id, req, c);
    StatusKeepsBuild(st.vehicles, req.vehicle, InService);
    assert Carried(st.vehicles, order) by {
      if req.vehicle.Some? {
        SelectableVehicle(st.vehicles[req.vehicle.value], order, |OnVehicle(st.orders, req.vehicle.value, None)|);
      }
    }
    forall o | o in after.orders ensures Carried(after.vehicles, after.orders[o]) {
      SameBuildStillCarries(st.vehicles, after.vehicles, after.orders[o]);
    }
  }

  /** No vehicle changes, and no order gets another vehicle or driver but a deleted one. */
  ghost predicate FleetUntouched(st: State, after: State) {
    && after.vehicles == st.vehicles
    && forall o :: o in after.orders ==>
         && o in st.orders && SameCargo(st.orders[o], after.orders[o])
         && after.orders[o].vehicle == st.orders[o].vehicle
         && (after.orders[o].driver == st.orders[o].driver || after.orders[o].driver == None)
         && (Dispatched(after.orders[o].status) ==> Dispatched(st.orders[o].status))
  }

  lemma UntouchedKeepsFitted(st: State, after: State)
    requires Fitted(st) && FleetUntouched(st, after)
    ensures Fitted(after)
  {
    forall o | o in after.orders ensures Carried(after.vehicles, after.orders[o]) {
      assert Carried(st.vehicles, st.orders[o]);
    }
  }

  predicate TouchesFleet(r: Request) {
    r.DoCreateOrder? || r.DoUpdateOrder? || r.DoReceive? || r.DoSubmitPod?
  }

  lemma StatusLeavesFleet(st: State, c: Call)
    requires c.request.DoUpdateStatus?
    ensures FleetUntouched(st, After(st, c))
  {
    var r := c.request;
    if MayUpdateStatus(st, r.id, r.status, r.slot, c.actor) {
      if r.status.Stored? {
        PutAwayLeavesFleet(st, r.id, PutTarget(st, r.id, r.slot).value);
      } else {
        LeaveLeavesFleet(st, r.id, r.status);
      }
    }
  }

  lemma PutAwayLeavesFleet(st: State, id: Id, s: Id)
    requires id in st.goods
    ensures FleetUntouched(st, PutAway(st, id, s))
  {
  }

  lemma LeaveLeavesFleet(st: State, id: Id, status: GoodsStatus)
    requires id in st.goods
    ensures FleetUntouched(st, Leave(st, id, status))
  {
  }

  lemma GoodsLeaveFleet(st: State, c: Call)
    requires c.request.DoUpdateStatus? || c.request.DoTransferSlot? || c.request.DoRegister? || c.request.DoReconcile?
    ensures FleetUntouched(st, After(st, c))
  {
    if c.request.DoUpdateStatus? {
      StatusLeavesFleet(st, c);
    }
  }

  lemma DeletedLeavesFleet(st: State, c: Id)
    requires Linked(st)
    ensures FleetUntouched(st, Deleted(st, c))
  {
    DeletedFollows(st, c);
  }

  lemma TenancyLeavesFleet(st: State, c: Call)
    requires c.request.DoRentSpace? || c.request.DoChangeWarehouse? || c.request.DoPay? || c.request.DoVerify?
    ensures FleetUntouched(st, After(st, c))
  {
  }

  lemma OthersLeaveFleet(st: State, c: Call)
    requires Linked(st) && !TouchesFleet(c.request)
    ensures FleetUntouched(st, After(st, c))
  {
    match c.request
    case DoDeleteUser(id) => DeletedLeavesFleet(st, id);
    case DoRentSpace(_, _, _) => TenancyLeavesFleet(st, c);
    case DoChangeWarehouse(_, _) => TenancyLeavesFleet(st, c);
    case DoPay(_, _) => TenancyLeavesFleet(st, c);
    case DoVerify(_, _) => TenancyLeavesFleet(st, c);
    case _ => GoodsLeaveFleet(st, c);
  }

  lemma StepKeepsFitted(st: State, c: Call)
    requires Linked(st) && Fitted(st)
    ensures Fitted(After(st, c))
  {
    match c.request
    case DoCreateOrder(id, req) =>
      if MayCreate(st, id, req, c.actor, c.now) { CreatedKeepsFitted(st, id, req, c.actor, c.now); }
    case DoUpdateOrder(id, t, v, d) =>
      if MayUpdateOrder(st, id, t, v, d, c.actor, c.now) { OrderUpdatedKeepsFitted(st, id, t, v, d, c.actor, c.now); }
    case DoReceive(id, counted) =>
      if MayReceive(st, id, counted, c.actor) { FinishedKeepsFitted(st, id); }
    case DoSubmitPod(id) =>
      if MaySubmitPod(st, id, c.actor) { FinishedKeepsFitted(st, id); }
    case _ =>
      OthersLeaveFleet(st, c);
      UntouchedKeepsFitted(st, After(st, c));
  }

  ghost predicate SoundAndFitted(st: State) {
    Sound(st) && Fitted(st)
  }

  /** In every reachable state an order with a vehicle fits it: cold cargo is cooled to -18 degrees,
      and even the exact volume and weight stay within half a rounding unit of the limits. */
  lemma EveryVehicleFits(st: State, calls: seq<Call>, o: Id)
    requires SoundAndFitted(st) && o in Run(st, calls).orders && Run(st, calls).orders[o].vehicle.Some?
    ensures var end := Run(st, calls); var order := end.orders[o];
      && order.vehicle.value in end.vehicles
      && var v := end.vehicles[order.vehicle.value];
      && (AnyCold(end.goods, order.items) ==> IsReefer(v) && (v.minTemp.Some? ==> v.minTemp.value <= -1800))
      && Shares.Total(VolumeShares(end.goods, order.items)) < (100 * v.maxVolume) as real + 0.5
      && Shares.Total(WeightShares(end.goods, order.items)) < v.maxWeight as real + 0.5
  {
    forall s, c | SoundAndFitted(s) && Always(s, c) ensures SoundAndFitted(After(s, c)) {
      StepKeepsSound(s, c);
      StepKeepsFitted(s, c);
    }
    Unguarded(st, calls);
    RunKeeps(SoundAndFitted, Always, st, calls);
    var end := Run(st, calls);
    FitsExactly(end, end.orders[o]);
  }

  lemma FitsExactly(st: State, o: Order)
    requires OrderSound(st.goods, o) && Carried(st.vehicles, o) && o.vehicle.Some?
    ensures var v := st.vehicles[o.vehicle.value];
      && (AnyCold(st.goods, o.items) ==> IsReefer(v) && (v.minTemp.Some? ==> v.minTemp.value <= -1800))
      && Shares.Total(VolumeShares(st.goods, o.items)) < (100 * v.maxVolume) as real + 0.5
      && Shares.Total(WeightShares(st.goods, o.items)) < v.maxWeight as real + 0.5
  {
    RoundedIsNear(VolumeShares(st.goods, o.items));
    RoundedIsNear(WeightShares(st.goods, o.items));
  }

  lemma RoundedIsNear(shares: map<Id, real>)
    ensures 0 <= Rounded(shares) && Shares.Total(shares) < Rounded(shares) as real + 0.5
  {
  }

  // ---- exclusive assignment ----

  predicate Apart(a: Order, b: Order) {
    && (a.vehicle.Some? ==> a.vehicle != b.vehicle)
    && (a.driver.Some? ==> a.driver != b.driver)
  }

  /** No two orders under way share a vehicle or a driver. */
  ghost predicate Exclusive(orders: map<Id, Order>) {
    forall a, b ::
      a in orders && b in orders && a != b && Dispatched(orders[a].status) && Dispatched(orders[b].status) ==>
      Apart(orders[a], orders[b])
  }

  ghost predicate VehicleFree(orders: map<Id, Order>, v: Option<Id>, except: Id) {
    v.Some? ==> OnVehicle(orders, v.value, Some(except)) == {}
  }

  ghost predicate DriverFree(orders: map<Id, Order>, d: Option<Id>, except: Id) {
    d.Some? ==> OnDriver(orders, d.value, Some(except)) == {}
  }

  /** The conditions an update never checks: an order that leaves DELAYED for the road again keeps
      the vehicle and driver it is not given anew, and another order may hold them by now. */
  ghost predicate ResumeIsClear(st: State, id: Id, t: OrderStatus, vehicle: Field, driver: Field) {
    id in st.orders && st.orders[id].status.Delayed? && Dispatched(t) ==>
      && (!vehicle.Given? ==> VehicleFree(st.orders, st.orders[id].vehicle, id))
      && (!driver.Given? ==> DriverFree(st.orders, st.orders[id].driver, id))
  }

  ghost predicate FleetGuard(st: State, c: Call) {
    match c.request
    case DoUpdateOrder(id, t, v, d) => MayUpdateOrder(st, id, t, v, d, c.actor, c.now) ==>
      ResumeIsClear(st, id, t, v, d)
    case _ => true
  }

  /** One order changed: exclusive exactly when, if it is under way, nobody else holds what it holds. */
  lemma OneOrderExclusive(orders: map<Id, Order>, id: Id, row: Order)
    requires Exclusive(orders)
    ensures Exclusive(orders[id := row])
       <==> (Dispatched(row.status) ==> VehicleFree(orders, row.vehicle, id) && DriverFree(orders, row.driver, id))
  {
    var after := orders[id := row];
    if Dispatched(row.status) {
      if VehicleFree(orders, row.vehicle, id) && DriverFree(orders, row.driver, id) {
        forall a, b | a in after && b in after && a != b && Dispatched(after[a].status) && Dispatched(after[b].status)
          ensures Apart(after[a], after[b])
        {
          if a == id || b == id {
            var other := if a == id then b else a;
            assert row.vehicle.Some? ==> other !in OnVehicle(orders, row.vehicle.value, Some(id));
            assert row.driver.Some? ==> other !in OnDriver(orders, row.driver.value, Some(id));
          }
        }
      } else if !VehicleFree(orders, row.vehicle, id) {
        var o :| o in OnVehicle(orders, row.vehicle.value, Some(id));
        assert !Apart(after[id], after[o]);
      } else {
        var o :| o in OnDriver(orders, row.driver.value, Some(id));
        assert !Apart(after[id], after[o]);
      }
    } else {
      forall a, b | a in after && b in after && a != b && Dispatched(after[a].status) && Dispatched(after[b].status)
        ensures Apart(after[a], after[b])
      {
      }
    }
  }

  /** An order under way holds what no other order under way holds. */
  lemma OwnFleetIsFree(orders: map<Id, Order>, id: Id)
    requires Exclusive(orders) && id in orders && Dispatched(orders[id].status)
    ensures VehicleFree(orders, orders[id].vehicle, id) && DriverFree(orders, orders[id].driver, id)
  {
    var row := orders[id];
    assert orders[id := row] == orders;
    OneOrderExclusive(orders, id, row);
  }

  lemma UpdateAndExclusive(st: State, id: Id, t: OrderStatus, vehicle: Field, driver: Field, actor: Actor, now: int)
    requires Exclusive(st.orders) && MayUpdateOrder(st, id, t, vehicle, driver, actor, now)
    ensures Exclusive(OrderUpdated(st, id, t, vehicle, driver).orders) <==> ResumeIsClear(st, id, t, vehicle, driver)
  {
    var before := st.orders[id];
    var row := OrderRow(before, t, vehicle, driver);
    OneOrderExclusive(st.orders, id, row);
    if Dispatched(before.status) {
      OwnFleetIsFree(st.orders, id);
    }
    if vehicle.Given? { assert VehicleFree(st.orders, row.vehicle, id); }
    if driver.Given? { assert DriverFree(st.orders, row.driver, id); }
  }

  lemma CreatedIsExclusive(st: State, id: Id, req: OrderRequest, actor: Actor, now: int)
    requires Exclusive(st.orders) && MayCreate(st, id, req, actor, now)
    ensures Exclusive(Created(st, id, req, OnBehalf(actor, req.customer)).orders)
  {
    var row := NewOrder(st, req, OnBehalf(actor, req.customer));
    OneOrderExclusive(st.orders, id, row);
    if req.vehicle.Some? {
      assert OnVehicle(st.orders, req.vehicle.value, Some(id)) == OnVehicle(st.orders, req.vehicle.value, None);
    }
    if req.driver.Some? {
      assert OnDriver(st.orders, req.driver.value, Some(id)) == OnDriver(st.orders, req.driver.value, None);
    }
  }

  lemma UntouchedKeepsExclusive(st: State, after: State)
    requires Exclusive(st.orders) && FleetUntouched(st, after)
    ensures Exclusive(after.orders)
  {
    forall a, b | a in after.orders && b in after.orders && a != b
        && Dispatched(after.orders[a].status) && Dispatched(after.orders[b].status)
      ensures Apart(after.orders[a], after.orders[b])
    {
      assert Apart(st.orders[a], st.orders[b]);
    }
  }

  /** Every request keeps the assignment exclusive, an update exactly when its resume is clear. */
  lemma StepAndExclusive(st: State, c: Call)
    requires Linked(st) && Exclusive(st.orders)
    ensures Exclusive(After(st, c).orders) <==> FleetGuard(st, c)
  {
    match c.request
    case DoCreateOrder(id, req) =>
      if MayCreate(st, id, req, c.actor, c.now) { CreatedIsExclusive(st, id, req, c.actor, c.now); }
    case DoUpdateOrder(id, t, v, d) =>
      if MayUpdateOrder(st, id, t, v, d, c.actor, c.now) { UpdateAndExclusive(st, id, t, v, d, c.actor, c.now); }
    case DoReceive(id, counted) =>
      if MayReceive(st, id, counted, c.actor) { FinishedIsExclusive(st, id); }
    case DoSubmitPod(id) =>
      if MaySubmitPod(st, id, c.actor) { FinishedIsExclusive(st, id); }
    case _ =>
      OthersLeaveFleet(st, c);
      UntouchedKeepsExclusive(st, After(st, c));
  }

  lemma FinishedIsExclusive(st: State, id: Id)
    requires Exclusive(st.orders) && id in st.orders
    ensures Exclusive(Finished(st, id).orders)
  {
    OneOrderExclusive(st.orders, id, st.orders[id].(status := OrderStatus.Delivered));
  }

  ghost predicate SoundAndExclusive(st: State) {
    Sound(st) && Exclusive(st.orders)
  }

  /** Over any run whose resumes are clear, no two orders under way share a vehicle or a driver. */
  lemma AssignmentsStayExclusive(st: State, calls: seq<Call>)
    requires SoundAndExclusive(st) && Guarded(st, calls, FleetGuard)
    ensures SoundAndExclusive(Run(st, calls))
  {
    forall s, c | SoundAndExclusive(s) && FleetGuard(s, c) ensures SoundAndExclusive(After(s, c)) {
      StepKeepsSound(s, c);
      StepAndExclusive(s, c);
    }
    RunKeeps(SoundAndExclusive, FleetGuard, st, calls);
  }
}
