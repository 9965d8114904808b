/** A vehicle on an order under way is IN_SERVICE: what keeps it so, and what does not. */
module ServiceTheorems {
  import opened Domain
  import opened Dispatch
  import opened System
  import opened OrderTheorems
  import opened FleetTheorems

  predicate InUse(vehicles: map<Id, Vehicle>, v: Option<Id>) {
    v.Some? && v.value in vehicles ==> vehicles[v.value].status.InService?
  }

  ghost predicate AllInUse(orders: map<Id, Order>, vehicles: map<Id, Vehicle>) {
    forall o :: o in orders && Dispatched(orders[o].status) ==> InUse(vehicles, orders[o].vehicle)
  }

  ghost predicate Serving(st: State) {
    AllInUse(st.orders, st.vehicles)
  }

  /** No other order under way holds the vehicle. */
  predicate NobodyElse(st: State, v: Option<Id>, id: Id) {
    v.Some? && v.value in st.vehicles ==> OnVehicle(st.orders, v.value, Some(id)) == {}
  }

  /** On the road: the vehicle is not swapped, and one resumed with is still in use. At the end: nobody
      else holds the vehicle that is freed. The update checks none of these. */
  predicate UpdateServes(st: State, id: Id, t: OrderStatus, vehicle: Field)
    requires id in st.orders
  {
    var o := st.orders[id];
    && (Dispatched(t) && !t.DriverAssigned? ==>
          !vehicle.Given? && (o.status.Delayed? ==> InUse(st.vehicles, o.vehicle)))
    && (t.Delivered? || t.Cancelled? ==> NobodyElse(st, vehicle.Kept(o.vehicle), id))
  }

  ghost predicate ServiceGuard(st: State, c: Call) {
    match c.request
    case DoUpdateOrder(id, t, v, d) =>
      MayUpdateOrder(st, id, t, v, d, c.actor, c.now) ==> UpdateServes(st, id, t, v)
    case DoReceive(id, counted) => MayReceive(st, id, counted, c.actor) ==> NobodyElse(st, st.orders[id].vehicle, id)
    case DoSubmitPod(id) => MaySubmitPod(st, id, c.actor) ==> NobodyElse(st, st.orders[id].vehicle, id)
    case _ => true
  }

  /** One order and one vehicle changed. */
  lemma OneOfEach(st: State, id: Id, row: Order, v: Option<Id>, status: VehicleStatus)
    requires Serving(st)
    ensures var vehicles := WithVehicle(st.vehicles, v, status);
      AllInUse(st.orders[id := row], vehicles)
      <==> (Dispatched(row.status) ==> InUse(vehicles, row.vehicle)) && (status.InService? || NobodyElse(st, v, id))
  {
    var orders, vehicles := st.orders[id := row], WithVehicle(st.vehicles, v, status);
    assert id in orders && orders[id] == row;
    if !status.InService? && !NobodyElse(st, v, id) {
      var o :| o in OnVehicle(st.orders, v.value, Some(id));
      assert orders[o] == st.orders[o] && !InUse(vehicles, orders[o].vehicle);
    } else if Dispatched(row.status) ==> InUse(vehicles, row.vehicle) {
      forall o | o in orders && Dispatched(orders[o].status) ensures InUse(vehicles, orders[o].vehicle) {
        if o != id {
          assert InUse(st.vehicles, st.orders[o].vehicle);
          assert !status.InService? && v.Some? && v.value in st.vehicles ==>
            o !in OnVehicle(st.orders, v.value, Some(id));
        }
      }
    }
  }

  lemma UpdateAndService(st: State, id: Id, t: OrderStatus, v: Field, d: Field, actor: Actor, now: int)
    requires Serving(st) && MayUpdateOrder(st, id, t, v, d, actor, now)
    ensures Serving(OrderUpdated(st, id, t, v, d)) <==> UpdateServes(st, id, t, v)
  {
    var o := st.orders[id];
    var row := OrderRow(o, t, v, d);
    if t.DriverAssigned? {
      OneOfEach(st, id, row, v.Target(o.vehicle), InService);
    } else if t.Delivered? || t.Cancelled? {
      OneOfEach(st, id, row, v.Kept(o.vehicle), VehicleStatus.Available);
    } else {
      OneOfEach(st, id, row, None, InService);
      if Dispatched(t) { OnTheRoad(st, id, t, v, d, actor, now); }
    }
  }

  /** The vehicle an order goes on with is in use exactly if it is not given anew, because a vehicle
      that is accepted is an available one, and, after a delay, was not taken out of service since. */
  lemma OnTheRoad(st: State, id: Id, t: OrderStatus, v: Field, d: Field, actor: Actor, now: int)
    requires Serving(st) && MayUpdateOrder(st, id, t, v, d, actor, now) && Dispatched(t) && !t.DriverAssigned?
    ensures InUse(st.vehicles, v.Kept(st.orders[id].vehicle)) <==> UpdateServes(st, id, t, v)
  {
    var o := st.orders[id];
    if v.Given? {
      SelectableVehicle(st.vehicles[v.id], o, |OnVehicle(st.orders, v.id, Some(id))|);
    }
  }

  /** So a vehicle swap on the road always puts the order on a vehicle that is not IN_SERVICE. */
  lemma SwapOnTheRoadBreaks(st: State, id: Id, t: OrderStatus, v: Field, d: Field, actor: Actor, now: int)
    requires Serving(st) && MayUpdateOrder(st, id, t, v, d, actor, now)
    requires Dispatched(t) && !t.DriverAssigned? && v.Given?
    ensures !Serving(OrderUpdated(st, id, t, v, d))
  {
    UpdateAndService(st, id, t, v, d, actor, now);
  }

  lemma CreatedServes(st: State, id: Id, req: OrderRequest, c: Id)
    requires Serving(st)
    ensures Serving(Created(st, id, req, c))
  {
    OneOfEach(st, id, NewOrder(st, req, c), req.vehicle, InService);
  }

  lemma FinishedAndService(st: State, id: Id)
    requires Serving(st) && id in st.orders
    ensures Serving(Finished(st, id)) <==> NobodyElse(st, st.orders[id].vehicle, id)
  {
    OneOfEach(st, id, st.orders[id].(status := OrderStatus.Delivered), st.orders[id].vehicle, VehicleStatus.Available);
  }

  lemma UntouchedServes(st: State, after: State)
    requires Serving(st) && FleetUntouched(st, after)
    ensures Serving(after)
  {
    forall o | o in after.orders && Dispatched(after.orders[o].status)
      ensures InUse(after.vehicles, after.orders[o].vehicle)
    {
      assert InUse(st.vehicles, st.orders[o].vehicle);
    }
  }

  lemma FinishingStep(st: State, c: Call)
    requires Serving(st) && (c.request.DoReceive? || c.request.DoSubmitPod?)
    ensures Serving(After(st, c)) <==> ServiceGuard(st, c)
  {
    match c.request
    case DoReceive(id, counted) =>
      if MayReceive(st, id, counted, c.actor) { FinishedAndService(st, id); }
    case DoSubmitPod(id) =>
      if MaySubmitPod(st, id, c.actor) { FinishedAndService(st, id); }
  }

  lemma UpdateStep(st: State, c: Call)
    requires Serving(st) && c.request.DoUpdateOrder?
    ensures Serving(After(st, c)) <==> ServiceGuard(st, c)
  {
    var r := c.request;
    if MayUpdateOrder(st, r.id, r.to, r.vehicle, r.driver, c.actor, c.now) {
      UpdateAndService(st, r.id, r.to, r.vehicle, r.driver, c.actor, c.now);
    }
  }

  lemma CreateStep(st: State, c: Call)
    requires Serving(st) && c.request.DoCreateOrder?
    ensures Serving(After(st, c))
  {
    var r := c.request;
    if MayCreate(st, r.id, r.order, c.actor, c.now) {
      CreatedServes(st, r.id, r.order, OnBehalf(c.actor, r.order.customer));
    }
  }

  /** Every request keeps the vehicles of orders under way IN_SERVICE exactly under its guard. */
  lemma StepAndService(st: State, c: Call)
    requires Linked(st) && Serving(st)
    ensures Serving(After(st, c)) <==> ServiceGuard(st, c)
  {
    if c.request.DoCreateOrder? {
      CreateStep(st, c);
    } else if c.request.DoUpdateOrder? {
      UpdateStep(st, c);
    } else if c.request.DoReceive? || c.request.DoSubmitPod? {
      FinishingStep(st, c);
    } else {
      OthersLeaveFleet(st, c);
      UntouchedServes(st, After(st, c));
    }
  }

  ghost predicate ServingThroughout(st: State, calls: seq<Call>)
    decreases |calls|
  {
    Serving(st) && (calls == [] || ServingThroughout(After(st, calls[0]), calls[1..]))
  }

  /** A run keeps it throughout exactly when each of its requests meets the guard. */
  lemma {:induction false} ServiceIsExact(st: State, calls: seq<Call>)
    requires Sound(st) && Serving(st)
    ensures ServingThroughout(st, calls) <==> Guarded(st, calls, ServiceGuard)
    decreases |calls|
  {
    if calls != [] {
      StepAndService(st, calls[0]);
      StepKeepsSound(st, calls[0]);
      if ServiceGuard(st, calls[0]) {
        ServiceIsExact(After(st, calls[0]), calls[1..]);
      }
    }
  }
}
