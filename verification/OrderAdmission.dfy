/** Which orders are accepted, with which vehicles and drivers, and what becomes of their goods. */
module OrderAdmission {
  import opened Domain
  import opened Quantities
  import opened Sums
  import opened Fleet
  import opened Dispatch
  import opened System
  import opened OrderTheorems
  import opened FleetTheorems
  import Shares

  // ---- drivers and vehicles ----

  /** An active driver whose licence has not expired. */
  predicate FitToDrive(users: map<Id, User>, d: Id, now: int) {
    && d in users && users[d].role.Driver? && users[d].status.Active?
    && (users[d].licenseExpiry.Some? ==> now <= users[d].licenseExpiry.value)
  }

  /** No order under way but `except` holds the driver. */
  predicate DriverIdle(orders: map<Id, Order>, d: Id, except: Option<Id>) {
    forall o :: o in orders && Some(o) != except && Dispatched(orders[o].status) ==> orders[o].driver != Some(d)
  }

  predicate VehicleIdle(orders: map<Id, Order>, v: Id, except: Option<Id>) {
    forall o :: o in orders && Some(o) != except && Dispatched(orders[o].status) ==> orders[o].vehicle != Some(v)
  }

  lemma SelectableDriver(d: User, activeOrders: nat, now: int)
    ensures EvaluateDriver(d, activeOrders, now) == Suitability(true, true)
       <==> d.role.Driver? && d.status.Active? && activeOrders == 0
             && (d.licenseExpiry.Some? ==> now <= d.licenseExpiry.value)
  {
  }

  lemma IdleMeansNone(orders: map<Id, Order>, k: Id, except: Option<Id>)
    ensures DriverIdle(orders, k, except) <==> |OnDriver(orders, k, except)| == 0
    ensures VehicleIdle(orders, k, except) <==> |OnVehicle(orders, k, except)| == 0
  {
    if |OnDriver(orders, k, except)| == 0 {
      assert OnDriver(orders, k, except) == {};
      forall o | o in orders && Some(o) != except && Dispatched(orders[o].status) ensures orders[o].driver != Some(k) {
        assert o !in OnDriver(orders, k, except);
      }
    } else {
      var o :| o in OnDriver(orders, k, except);
    }
    if |OnVehicle(orders, k, except)| == 0 {
      assert OnVehicle(orders, k, except) == {};
      forall o | o in orders && Some(o) != except && Dispatched(orders[o].status) ensures orders[o].vehicle != Some(k) {
        assert o !in OnVehicle(orders, k, except);
      }
    } else {
      var o :| o in OnVehicle(orders, k, except);
    }
  }

  /** A driver may be assigned exactly if he is fit to drive and idle. */
  lemma DriverIsEligible(st: State, cargo: Cargo, except: Option<Id>, d: Id, now: int)
    ensures Eligible(st, cargo, except, None, Some(d), now)
       <==> FitToDrive(st.users, d, now) && DriverIdle(st.orders, d, except)
  {
    IdleMeansNone(st.orders, d, except);
  }

  /** A vehicle exactly if it is available, idle and carries the cargo. */
  lemma VehicleIsEligible(st: State, o: Order, except: Option<Id>, v: Id, now: int)
    ensures Eligible(st, o.CargoOf(), except, Some(v), None, now)
       <==> && v in st.vehicles && st.vehicles[v].status.Available? && VehicleIdle(st.orders, v, except)
            && Carries(st.vehicles[v], o.reefer, o.volume, o.weight)
  {
    IdleMeansNone(st.orders, v, except);
    if v in st.vehicles {
      SelectableVehicle(st.vehicles[v], o, |OnVehicle(st.orders, v, except)|);
    }
  }

  /** The request hands this order to this driver. */
  predicate Hands(call: Call, o: Id, d: Id) {
    || (call.request.DoCreateOrder? && call.request.id == o && call.request.order.driver == Some(d))
    || (call.request.DoUpdateOrder? && call.request.id == o && call.request.driver == Given(d))
  }

  predicate HandsVehicle(call: Call, o: Id, v: Id) {
    || (call.request.DoCreateOrder? && call.request.id == o && call.request.order.vehicle == Some(v))
    || (call.request.DoUpdateOrder? && call.request.id == o && call.request.vehicle == Given(v))
  }

  /** Every accepted creation, assignment or swap gives an order to a driver fit to drive and idle. */
  lemma DriversHandedAreFit(st: State, call: Call, o: Id, d: Id)
    requires Apply(st, call).Accepted? && Hands(call, o, d)
    ensures FitToDrive(st.users, d, call.now) && DriverIdle(st.orders, d, Some(o))
    ensures o in After(st, call).orders && After(st, call).orders[o].driver == Some(d)
  {
    IdleMeansNone(st.orders, d, Some(o));
    IdleMeansNone(st.orders, d, None);
  }

  /** The order has got a vehicle that was available and idle, and carries it. */
  predicate WellVehicled(st: State, after: State, o: Id, v: Id) {
    && v in st.vehicles && st.vehicles[v].status.Available? && VehicleIdle(st.orders, v, Some(o))
    && o in after.orders && after.orders[o].vehicle == Some(v)
    && Carries(st.vehicles[v], after.orders[o].reefer, after.orders[o].volume, after.orders[o].weight)
  }

  lemma CreatedIsWellVehicled(st: State, call: Call, v: Id)
    requires call.request.DoCreateOrder? && Apply(st, call).Accepted? && call.request.order.vehicle == Some(v)
    ensures WellVehicled(st, After(st, call), call.request.id, v)
  {
    var row := NewOrder(st, call.request.order, OnBehalf(call.actor, call.request.order.customer));
    VehicleIsEligible(st, row, None, v, call.now);
  }

  lemma UpdatedIsWellVehicled(st: State, call: Call, v: Id)
    requires call.request.DoUpdateOrder? && Apply(st, call).Accepted? && call.request.vehicle == Given(v)
    ensures WellVehicled(st, After(st, call), call.request.id, v)
  {
    VehicleIsEligible(st, st.orders[call.request.id], Some(call.request.id), v, call.now);
  }

  /** And to an available, idle vehicle that carries it. */
  lemma VehiclesHandedFit(st: State, call: Call, o: Id, v: Id)
    requires Apply(st, call).Accepted? && HandsVehicle(call, o, v)
    ensures WellVehicled(st, After(st, call), o, v)
  {
    if call.request.DoCreateOrder? {
      CreatedIsWellVehicled(st, call, v);
    } else {
      UpdatedIsWellVehicled(st, call, v);
    }
  }

  /** An order going to DRIVER_ASSIGNED keeps neither an unfit driver nor an unsuited vehicle either. */
  lemma AssignedFleetIsFit(st: State, call: Call)
    requires call.request.DoUpdateOrder? && call.request.to.DriverAssigned? && Apply(st, call).Accepted?
    ensures var row := After(st, call).orders[call.request.id];
      && row.driver.Some? && row.vehicle.Some? && row.vehicle.value in st.vehicles
      && FitToDrive(st.users, row.driver.value, call.now)
      && st.vehicles[row.vehicle.value].status.Available?
      && After(st, call).vehicles[row.vehicle.value].status.InService?
  {
  }

  /** What a field of an update asks for: the one held if left out, nobody if blank. */
  function Asked(field: Field, held: Option<Id>): Option<Id> {
    match field
    case Absent => held
    case Blank => None
    case Given(i) => Some(i)
  }

  /** These may take the order on: fit, available and idle but for it, and the vehicle carries it. */
  predicate MayTakeOn(st: State, id: Id, v: Option<Id>, d: Option<Id>, now: int)
    requires id in st.orders
  {
    && (v.Some? ==>
          && v.value in st.vehicles && st.vehicles[v.value].status.Available?
          && VehicleIdle(st.orders, v.value, Some(id))
          && Carries(st.vehicles[v.value], st.orders[id].reefer, st.orders[id].volume, st.orders[id].weight))
    && (d.Some? ==> FitToDrive(st.users, d.value, now) && DriverIdle(st.orders, d.value, Some(id)))
  }

  lemma TakingOnIsEligible(st: State, id: Id, v: Option<Id>, d: Option<Id>, now: int)
    requires id in st.orders
    ensures MayTakeOn(st, id, v, d, now) <==> Eligible(st, st.orders[id].CargoOf(), Some(id), v, d, now)
  {
    if v.Some? { VehicleIsEligible(st, st.orders[id], Some(id), v.value, now); }
    if d.Some? { DriverIsEligible(st, st.orders[id].CargoOf(), Some(id), d.value, now); }
  }

  lemma TakersAreIdle(st: State, id: Id, v: Option<Id>, d: Option<Id>, now: int)
    requires id in st.orders && MayTakeOn(st, id, v, d, now)
    ensures v.Some? ==> OnVehicle(st.orders, v.value, Some(id)) == {}
    ensures d.Some? ==> OnDriver(st.orders, d.value, Some(id)) == {}
  {
    if v.Some? { IdleMeansNone(st.orders, v.value, Some(id)); }
    if d.Some? { IdleMeansNone(st.orders, d.value, Some(id)); }
  }

  /** An update is accepted exactly if the move and the role allow it, an assignment names vehicle and
      driver or has them, and whenever it assigns or names one of them both may take the order on. */
  lemma UpdateIsAccepted(st: State, call: Call)
    requires call.request.DoUpdateOrder?
    ensures var r := call.request;
      Apply(st, call).Accepted?
      <==> r.id in st.orders && var o := st.orders[r.id];
           var v, d := Asked(r.vehicle, o.vehicle), Asked(r.driver, o.driver);
           && (call.actor.role.Customer? ==> o.customer == call.actor.id)
           && MaySetOrder(call.actor.role, r.to, o.kind) && OrderMay(o.status, r.to)
           && (r.to.DriverAssigned? ==> v.Some? && d.Some?)
           && (r.to.DriverAssigned? || r.vehicle.Given? || r.driver.Given? ==> MayTakeOn(st, r.id, v, d, call.now))
  {
    var r := call.request;
    if r.id in st.orders {
      FleetIsAsked(st, r.id, r.to, r.vehicle, r.driver, call.now);
    }
  }

  lemma FleetIsAsked(st: State, id: Id, t: OrderStatus, vehicle: Field, driver: Field, now: int)
    requires id in st.orders
    ensures var v, d := Asked(vehicle, st.orders[id].vehicle), Asked(driver, st.orders[id].driver);
      FleetAllows(st, id, t, vehicle, driver, now)
      <==> && (t.DriverAssigned? ==> v.Some? && d.Some?)
           && (t.DriverAssigned? || vehicle.Given? || driver.Given? ==> MayTakeOn(st, id, v, d, now))
  {
    var v, d := Asked(vehicle, st.orders[id].vehicle), Asked(driver, st.orders[id].driver);
    TakingOnIsEligible(st, id, v, d, now);
    if MayTakeOn(st, id, v, d, now) { TakersAreIdle(st, id, v, d, now); }
  }

  lemma UpdateHandsDrivers(st: State, call: Call, o: Id, d: Id)
    requires call.request.DoUpdateOrder?
    requires o in After(st, call).orders && After(st, call).orders[o].driver == Some(d)
    requires !(o in st.orders && st.orders[o].driver == Some(d))
    ensures Hands(call, o, d)
  {
  }

  lemma FinishingHandsNobody(st: State, call: Call, o: Id, d: Id)
    requires call.request.DoReceive? || call.request.DoSubmitPod?
    requires o in After(st, call).orders && After(st, call).orders[o].driver == Some(d)
    ensures o in st.orders && st.orders[o].driver == Some(d)
  {
  }

  /** No other request gives an order a driver it had not. */
  lemma NobodyElseHandsDrivers(st: State, call: Call, o: Id, d: Id)
    requires Linked(st) && o in After(st, call).orders && After(st, call).orders[o].driver == Some(d)
    requires !(o in st.orders && st.orders[o].driver == Some(d))
    ensures Hands(call, o, d)
  {
    if !TouchesFleet(call.request) {
      OthersLeaveFleet(st, call);
    } else if call.request.DoUpdateOrder? {
      UpdateHandsDrivers(st, call, o, d);
    } else if call.request.DoReceive? || call.request.DoSubmitPod? {
      FinishingHandsNobody(st, call, o, d);
    }
  }

  // ---- creating an order ----

  /** The last quantity listed for a good counts. */
  lemma {:induction false} LastListedCounts(items: seq<(Id, Count)>, g: Id)
    ensures g in LastQuantities(items) <==> exists k :: 0 <= k < |items| && items[k].0 == g
    ensures forall k :: 0 <= k < |items| && items[k].0 == g && (forall j :: k < j < |items| ==> items[j].0 != g) ==>
      g in LastQuantities(items) && LastQuantities(items)[g] == items[k].1
  {
    if items != [] {
      var rest, last := items[..|items| - 1], items[|items| - 1];
      LastListedCounts(rest, g);
      if last.0 != g {
        forall k | 0 <= k < |items| && items[k].0 == g ensures k < |rest| && rest[k] == items[k] { }
      }
    }
  }

  /** `n` packages of `g` are asked for: the last quantity listed, or everything registered. */
  predicate Asks(req: OrderRequest, goods: map<Id, Goods>, g: Id, n: nat) {
    if req.items != [] then
      exists k :: 0 <= k < |req.items| && req.items[k].0 == g && n == req.items[k].1
                  && forall j :: k < j < |req.items| ==> req.items[j].0 != g
    else g in req.goodsIds && g in goods && n == goods[g].quantity
  }

  lemma {:induction false} LastOf(items: seq<(Id, Count)>, g: Id) returns (k: nat)
    requires exists i :: 0 <= i < |items| && items[i].0 == g
    ensures k < |items| && items[k].0 == g && forall j :: k < j < |items| ==> items[j].0 != g
    decreases |items|
  {
    k := |items| - 1;
    if items[k].0 != g {
      var rest := items[..k];
      var i :| 0 <= i < |items| && items[i].0 == g;
      assert rest[i].0 == g;
      k := LastOf(rest, g);
    }
  }

  lemma WantedIsAsked(req: OrderRequest, goods: map<Id, Goods>, g: Id, n: nat)
    ensures g in Wanted(req, goods) && Wanted(req, goods)[g] == n <==> Asks(req, goods, g, n)
  {
    if req.items != [] {
      LastListedCounts(req.items, g);
      if g in LastQuantities(req.items) {
        var k := LastOf(req.items, g);
        assert LastQuantities(req.items)[g] == req.items[k].1;
      }
    }
  }

  predicate RowsFound(req: OrderRequest, goods: map<Id, Goods>) {
    if req.items != [] then forall k :: 0 <= k < |req.items| ==> req.items[k].0 in goods
    else req.goodsIds != [] && Distinct(req.goodsIds)
         && forall k :: 0 <= k < |req.goodsIds| ==> req.goodsIds[k] in goods
  }

  /** The customer's own goods, there to be picked up or dispatched, with that many packages free. */
  ghost predicate Free(st: State, req: OrderRequest, c: Id, g: Id, n: nat) {
    && g in st.goods && st.goods[g].owner == c
    && (req.kind.Pickup? ==> st.goods[g].status.Draft? || st.goods[g].status.PendingPickup?)
    && (req.kind.Delivery? ==> st.goods[g].status.Stored? && st.goods[g].slot.Some?)
    && (req.warehouse.Some? ==> st.goods[g].warehouse == req.warehouse.value)
    && 1 <= n && ReservedQuantity(st.orders, g, req.kind) + n <= st.goods[g].quantity
  }

  lemma FoundIsListed(req: OrderRequest, goods: map<Id, Goods>)
    ensures Listed(req, goods) <==> RowsFound(req, goods)
  {
    if req.items != [] {
      forall g ensures g in LastQuantities(req.items) <==> exists k :: 0 <= k < |req.items| && req.items[k].0 == g {
        LastListedCounts(req.items, g);
      }
      if RowsFound(req, goods) {
        forall g | g in LastQuantities(req.items) ensures g in goods { }
      } else {
        var k :| 0 <= k < |req.items| && req.items[k].0 !in goods;
        assert req.items[k].0 in LastQuantities(req.items);
      }
    }
  }

  lemma FreeIsAccepted(st: State, req: OrderRequest, c: Id, g: Id, n: nat)
    requires g in st.goods && (n == 0 ==> st.goods[g].quantity == 0)
    ensures Suits(req, c, st.goods[g], n) && Claimable(st.orders, req.kind, g, st.goods[g].quantity, n)
       <==> Free(st, req, c, g, n)
  {
    FreeClaims(st, g, req.kind);
  }

  lemma FreeClaims(st: State, g: Id, kind: OrderType)
    ensures 0 <= ReservedQuantity(st.orders, g, kind)
  {
    NonNegative(Claims(st.orders, g, kind));
  }

  lemma AskedAreFree(st: State, req: OrderRequest, c: Id)
    ensures GoodsAccepted(st, req, c)
       <==> RowsFound(req, st.goods) && forall g, n :: Asks(req, st.goods, g, n) ==> Free(st, req, c, g, n)
  {
    FoundIsListed(req, st.goods);
    if Listed(req, st.goods) {
      var items := Wanted(req, st.goods);
      forall g, n ensures g in items && items[g] == n <==> Asks(req, st.goods, g, n) {
        WantedIsAsked(req, st.goods, g, n);
      }
      forall g | g in items
        ensures g in st.goods
        ensures (Suits(req, c, st.goods[g], items[g])
                 && Claimable(st.orders, req.kind, g, st.goods[g].quantity, items[g]))
           <==> Free(st, req, c, g, items[g])
      {
        EachWantedIsThere(req, st.goods, g);
        FreeIsAccepted(st, req, c, g, items[g]);
      }
    }
  }

  lemma EachWantedIsThere(req: OrderRequest, goods: map<Id, Goods>, g: Id)
    requires Listed(req, goods) && g in Wanted(req, goods)
    ensures g in goods && (Wanted(req, goods)[g] == 0 ==> goods[g].quantity == 0)
  {
    if req.items != [] {
      LastListedCounts(req.items, g);
      var k := LastOf(req.items, g);
    }
  }

  /** An order is accepted exactly if its goods are found and free, and its vehicle and driver, if given,
      are available or fit, idle, and suit the cargo. */
  lemma OrderIsAccepted(st: State, call: Call)
    requires call.request.DoCreateOrder?
    ensures var req := call.request.order;
      var c := if call.actor.role.Admin? && req.customer.Some? then req.customer.value else call.actor.id;
      var cargo := NewOrder(st, req, c);
      Apply(st, call).Accepted?
      <==> && !call.actor.role.Driver? && call.request.id !in st.orders
           && RowsFound(req, st.goods) && (forall g, n :: Asks(req, st.goods, g, n) ==> Free(st, req, c, g, n))
           && (req.vehicle.Some? ==>
                 && req.vehicle.value in st.vehicles && st.vehicles[req.vehicle.value].status.Available?
                 && VehicleIdle(st.orders, req.vehicle.value, None)
                 && Carries(st.vehicles[req.vehicle.value], cargo.reefer, cargo.volume, cargo.weight))
           && (req.driver.Some? ==>
                 FitToDrive(st.users, req.driver.value, call.now) && DriverIdle(st.orders, req.driver.value, None))
  {
    var req := call.request.order;
    var c := if call.actor.role.Admin? && req.customer.Some? then req.customer.value else call.actor.id;
    assert c == OnBehalf(call.actor, req.customer);
    AskedAreFree(st, req, c);
    FleetIsAccepted(st, NewOrder(st, req, c), req.vehicle, req.driver, call.now);
  }

  lemma FleetIsAccepted(st: State, cargo: Order, v: Option<Id>, d: Option<Id>, now: int)
    ensures (Eligible(st, cargo.CargoOf(), None, v, d, now) && (v.Some? ==> OnVehicle(st.orders, v.value, None) == {})
             && (d.Some? ==> OnDriver(st.orders, d.value, None) == {}))
       <==> && (v.Some? ==>
                  && v.value in st.vehicles && st.vehicles[v.value].status.Available?
                  && VehicleIdle(st.orders, v.value, None)
                  && Carries(st.vehicles[v.value], cargo.reefer, cargo.volume, cargo.weight))
            && (d.Some? ==> FitToDrive(st.users, d.value, now) && DriverIdle(st.orders, d.value, None))
  {
    if v.Some? {
      IdleMeansNone(st.orders, v.value, None);
      VehicleIsEligible(st, cargo, None, v.value, now);
    }
    if d.Some? {
      IdleMeansNone(st.orders, d.value, None);
      DriverIsEligible(st, cargo.CargoOf(), None, d.value, now);
    }
  }

  /** An accepted order is as asked for: its customer, vehicle and driver, assigned if it has a driver, the
      packages asked for. Its vehicle is in service, and no good of a pickup is a draft any longer. */
  lemma OrderIsAsAsked(st: State, call: Call)
    requires call.request.DoCreateOrder? && Apply(st, call).Accepted?
    ensures var req, id, after := call.request.order, call.request.id, After(st, call);
      && id in after.orders && after.orders - {id} == st.orders
      && var o := after.orders[id];
      && o.kind == req.kind && o.vehicle == req.vehicle && o.driver == req.driver
      && o.customer == (if call.actor.role.Admin? && req.customer.Some? then req.customer.value else call.actor.id)
      && o.status == (if req.driver.Some? then DriverAssigned else PendingAssignment)
      && (forall g, n :: g in o.items && o.items[g] == n <==> Asks(req, st.goods, g, n))
  {
    var req := call.request.order;
    forall g, n ensures g in Wanted(req, st.goods) && Wanted(req, st.goods)[g] == n <==> Asks(req, st.goods, g, n) {
      WantedIsAsked(req, st.goods, g, n);
    }
  }

  lemma OrderedGoodsWait(st: State, call: Call)
    requires call.request.DoCreateOrder? && Apply(st, call).Accepted?
    ensures var after := After(st, call); var o := after.orders[call.request.id];
      && after.goods.Keys == st.goods.Keys
      && (forall g :: g in st.goods ==>
            after.goods[g] ==
              if o.kind.Pickup? && g in o.items then st.goods[g].(status := PendingPickup) else st.goods[g])
      && (o.vehicle.Some? && o.vehicle.value in st.vehicles ==> after.vehicles[o.vehicle.value].status.InService?)
  {
    var req := call.request.order;
    var c := OnBehalf(call.actor, req.customer);
    forall g | g in Wanted(req, st.goods)
      ensures g in st.goods && (req.kind.Pickup? ==> st.goods[g].status.Draft? || st.goods[g].status.PendingPickup?)
    {
      assert Suits(req, c, st.goods[g], Wanted(req, st.goods)[g]);
    }
  }

  // ---- what an order weighs ----

  /** Everything that is registered of some goods. */
  ghost predicate Whole(goods: map<Id, Goods>, items: map<Id, nat>) {
    forall g :: g in items ==> g in goods && 0 < goods[g].quantity && items[g] == goods[g].quantity
  }

  ghost function Registered(goods: map<Id, Goods>, items: map<Id, nat>, measure: Goods -> int): map<Id, int> {
    map g | g in items && g in goods :: measure(goods[g])
  }

  lemma WholeShare(measure: nat, quantity: nat)
    requires 0 < quantity
    ensures Share(measure, quantity, quantity) == measure as real
  {
  }

  /** An order of whole goods comes to exactly what is registered for them, and to nothing cold unless
      one of them is. */
  lemma WholeOrdersAddUp(st: State, o: Order)
    requires OrderSound(st.goods, o) && Whole(st.goods, o.items)
    ensures o.volume == Sum(Registered(st.goods, o.items, VolumeOf))
    ensures o.weight == Sum(Registered(st.goods, o.items, WeightOf))
    ensures o.reefer <==> exists g :: g in o.items && (st.goods[g].requiresCold || st.goods[g].category == ColdFood)
  {
    VolumesAddUp(st.goods, o.items);
    WeightsAddUp(st.goods, o.items);
  }

  lemma VolumesAddUp(goods: map<Id, Goods>, items: map<Id, nat>)
    requires Whole(goods, items)
    ensures Rounded(VolumeShares(goods, items)) == Sum(Registered(goods, items, VolumeOf))
  {
    var m := Registered(goods, items, VolumeOf);
    forall g | g in items ensures VolumeShare(goods[g], items[g]) == m[g] as real {
      WholeShare(goods[g].volume, goods[g].quantity);
    }
    assert VolumeShares(goods, items) == Shares.Reals(m);
    WholeRounds(m);
  }

  lemma WeightsAddUp(goods: map<Id, Goods>, items: map<Id, nat>)
    requires Whole(goods, items)
    ensures Rounded(WeightShares(goods, items)) == Sum(Registered(goods, items, WeightOf))
  {
    var m := Registered(goods, items, WeightOf);
    forall g | g in items ensures WeightShare(goods[g], items[g]) == m[g] as real {
      WholeShare(goods[g].weight, goods[g].quantity);
    }
    assert WeightShares(goods, items) == Shares.Reals(m);
    WholeRounds(m);
  }

  lemma WholeRounds(m: map<Id, int>)
    requires forall k :: k in m ==> 0 <= m[k]
    ensures Rounded(Shares.Reals(m)) == Sum(m)
  {
    Shares.WholeTotal(m);
    NonNegative(m);
  }

  // ---- receiving ----

  /** Receiving is accepted exactly from an Admin, for an inbound order that has arrived with nothing
      cancelled, when received, damaged and missing packages are all it carries. */
  lemma ReceivingIsAccepted(st: State, call: Call)
    requires call.request.DoReceive?
    ensures Apply(st, call).Accepted?
      <==> && call.actor.role.Admin? && call.request.id in st.orders
           && var o := st.orders[call.request.id];
           && o.kind.Pickup? && o.status.ArrivedDestination?
           && (forall g :: g in o.items && g in st.goods ==> !st.goods[g].status.Cancelled?)
           && call.request.counted == Sum(o.items)
  {
    if call.request.id in st.orders {
      assert Manifest(st.orders[call.request.id].items) == st.orders[call.request.id].items;
    }
  }

  /** Then its goods are being inspected, the order is DELIVERED and its vehicle is free. */
  lemma ReceivedGoodsAreInspected(st: State, call: Call)
    requires call.request.DoReceive? && Apply(st, call).Accepted?
    ensures var o, after := st.orders[call.request.id], After(st, call);
      && after.goods.Keys == st.goods.Keys
      && (forall g :: g in st.goods ==>
            after.goods[g] == if g in o.items then st.goods[g].(status := Inspecting) else st.goods[g])
      && after.orders == st.orders[call.request.id := o.(status := OrderStatus.Delivered)]
      && (o.vehicle.Some? && o.vehicle.value in st.vehicles ==> after.vehicles[o.vehicle.value].status.Available?)
  {
  }
}
