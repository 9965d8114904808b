/** The goods of an inbound order follow it: what is on the truck is no longer waiting for pickup. */
module TransitTheorems {
  import opened Domain
  import opened Inventory
  import opened Dispatch
  import opened Tenancy
  import opened System
  import opened OrderTheorems

  predicate Waits(s: GoodsStatus) {
    s.Draft? || s.PendingPickup?
  }

  // ---- one update ----

  /** Every good of these that was in one of `from` is in `to`, and every other good is as before. */
  ghost predicate Follow(goods: map<Id, Goods>, after: map<Id, Goods>, items: map<Id, nat>,
    from: set<GoodsStatus>, to: GoodsStatus) {
    && after.Keys == goods.Keys
    && forall g :: g in goods ==>
         if g in items && goods[g].status in from then after[g] == goods[g].(status := to) else after[g] == goods[g]
  }

  lemma SyncedFollow(goods: map<Id, Goods>, o: Order, t: OrderStatus)
    requires o.kind.Pickup?
    ensures var after := SyncedGoods(goods, o, t);
      match t
      case DriverAssigned => Follow(goods, after, o.items, {Draft}, PendingPickup)
      case EnRoutePickup => Follow(goods, after, o.items, {Draft}, PendingPickup)
      case PickedUp => Follow(goods, after, o.items, {Draft, PendingPickup}, InTransitInbound)
      case InTransit => Follow(goods, after, o.items, {Draft, PendingPickup}, InTransitInbound)
      case Cancelled => Follow(goods, after, o.items, {PendingPickup, InTransitInbound}, Draft)
      case _ => after == goods
  {
    if !t.DriverAssigned? && !t.EnRoutePickup? && !t.PickedUp? && !t.InTransit? && !t.Cancelled? {
      assert forall g :: g in goods ==> SyncedGoods(goods, o, t)[g] == goods[g];
    }
  }

  /** An accepted update of an inbound order that assigns it or sends it out leaves none of its goods a
      draft; one that picks it up or is on the way leaves none waiting and exactly those that were in
      transit; one that cancels it gives back those that had not come; nothing else changes. */
  lemma GoodsFollowTheirOrder(st: State, call: Call)
    requires call.request.DoUpdateOrder? && Apply(st, call).Accepted? && st.orders[call.request.id].kind.Pickup?
    ensures var o, after := st.orders[call.request.id], After(st, call).goods;
      match call.request.to
      case DriverAssigned => Follow(st.goods, after, o.items, {Draft}, PendingPickup)
      case EnRoutePickup => Follow(st.goods, after, o.items, {Draft}, PendingPickup)
      case PickedUp => Follow(st.goods, after, o.items, {Draft, PendingPickup}, InTransitInbound)
      case InTransit => Follow(st.goods, after, o.items, {Draft, PendingPickup}, InTransitInbound)
      case Cancelled => Follow(st.goods, after, o.items, {PendingPickup, InTransitInbound}, Draft)
      case _ => after == st.goods
  {
    SyncedFollow(st.goods, st.orders[call.request.id], call.request.to);
  }

  /** An outbound order moves no goods. */
  lemma OutboundLeavesGoods(st: State, call: Call)
    requires call.request.DoUpdateOrder? && Apply(st, call).Accepted? && st.orders[call.request.id].kind.Delivery?
    ensures After(st, call).goods == st.goods
  {
    assert SyncedGoods(st.goods, st.orders[call.request.id], call.request.to) == st.goods;
  }

  // ---- on the truck ----

  predicate OnTruck(o: Order) {
    o.kind.Pickup? && (o.status.PickedUp? || o.status.InTransit?)
  }

  ghost predicate OrderLoaded(goods: map<Id, Goods>, o: Order) {
    OnTruck(o) ==> forall g :: g in o.items && g in goods ==> !Waits(goods[g].status)
  }

  /** No inbound order that was picked up carries a good still waiting for pickup. */
  ghost predicate Loaded(st: State) {
    forall o :: o in st.orders ==> OrderLoaded(st.goods, st.orders[o])
  }

  predicate Carries(st: State, o: Id, g: Id)
    requires o in st.orders
  {
    OnTruck(st.orders[o]) && g in st.orders[o].items
  }

  /** Goods on a truck are not set back to waiting, and no order is cancelled that shares goods in transit
      with one on the truck. */
  ghost predicate LoadGuard(st: State, c: Call) {
    match c.request
    case DoUpdateStatus(id, t, slot) =>
      MayUpdateStatus(st, id, t, slot, c.actor) && Waits(t) ==> forall o :: o in st.orders ==> !Carries(st, o, id)
    case DoUpdateOrder(id, t, v, d) =>
      MayUpdateOrder(st, id, t, v, d, c.actor, c.now) && st.orders[id].kind.Pickup? && t.Cancelled? ==>
        forall o, g :: o in st.orders && o != id && Carries(st, o, g) && g in st.orders[id].items && g in st.goods ==>
          !st.goods[g].status.InTransitInbound?
    case _ => true
  }

  /** No good comes to wait that did not, and no order comes onto the truck. */
  ghost predicate NoneUnloaded(st: State, after: State) {
    && (forall g :: g in after.goods && Waits(after.goods[g].status) ==>
          g !in st.goods || Waits(st.goods[g].status))
    && (forall o :: o in after.orders && OnTruck(after.orders[o]) ==>
          o in st.orders && OnTruck(st.orders[o]) && after.orders[o].items.Keys <= st.orders[o].items.Keys)
    && (forall o, g :: o in st.orders && g in st.orders[o].items ==> g in st.goods)
  }

  lemma StaysLoaded(st: State, after: State)
    requires Loaded(st) && NoneUnloaded(st, after)
    ensures Loaded(after)
  {
    forall o | o in after.orders ensures OrderLoaded(after.goods, after.orders[o]) {
      if OnTruck(after.orders[o]) { assert OrderLoaded(st.goods, st.orders[o]); }
    }
  }

  lemma PutAwayStaysLoaded(st: State, id: Id, s: Id)
    requires Loaded(st) && Linked(st) && id in st.goods
    ensures Loaded(PutAway(st, id, s))
  {
    StaysLoaded(st, PutAway(st, id, s));
  }

  lemma LeaveAndLoad(st: State, id: Id, t: GoodsStatus)
    requires Loaded(st) && Linked(st) && id in st.goods
    ensures Loaded(Leave(st, id, t)) <==> (Waits(t) ==> forall o :: o in st.orders ==> !Carries(st, o, id))
  {
    var after := Leave(st, id, t);
    if Waits(t) && exists o :: o in st.orders && Carries(st, o, id) {
      var o :| o in st.orders && Carries(st, o, id);
      assert !OrderLoaded(after.goods, after.orders[o]);
    } else {
      forall o | o in after.orders ensures OrderLoaded(after.goods, after.orders[o]) {
        assert OrderLoaded(st.goods, st.orders[o]);
      }
    }
  }

  lemma StatusAndLoad(st: State, c: Call)
    requires Loaded(st) && Linked(st) && c.request.DoUpdateStatus?
    ensures Loaded(After(st, c)) <==> LoadGuard(st, c)
  {
    var r := c.request;
    if MayUpdateStatus(st, r.id, r.status, r.slot, c.actor) {
      if r.status.Stored? {
        PutAwayStaysLoaded(st, r.id, PutTarget(st, r.id, r.slot).value);
      } else {
        LeaveAndLoad(st, r.id, r.status);
      }
    }
  }

  ghost predicate SharesNothingInTransit(st: State, id: Id)
    requires id in st.orders
  {
    forall o, g :: o in st.orders && o != id && Carries(st, o, g) && g in st.orders[id].items && g in st.goods ==>
      !st.goods[g].status.InTransitInbound?
  }

  lemma CancelAndLoad(st: State, id: Id, v: Field, d: Field)
    requires Loaded(st) && id in st.orders && st.orders[id].kind.Pickup?
    ensures Loaded(OrderUpdated(st, id, OrderStatus.Cancelled, v, d)) <==> SharesNothingInTransit(st, id)
  {
    var after := OrderUpdated(st, id, OrderStatus.Cancelled, v, d);
    if SharesNothingInTransit(st, id) {
      forall o | o in after.orders ensures OrderLoaded(after.goods, after.orders[o]) {
        if o != id {
          assert OrderLoaded(st.goods, st.orders[o]);
          forall g | OnTruck(st.orders[o]) && g in st.orders[o].items && g in st.goods
            ensures !Waits(after.goods[g].status)
          {
            assert Carries(st, o, g);
          }
        }
      }
    } else {
      var o, g :| o in st.orders && o != id && Carries(st, o, g) && g in st.orders[id].items && g in st.goods
        && st.goods[g].status.InTransitInbound?;
      assert Waits(after.goods[g].status) && !OrderLoaded(after.goods, after.orders[o]);
    }
  }

  lemma MoveStaysLoaded(st: State, id: Id, t: OrderStatus, v: Field, d: Field)
    requires Loaded(st) && id in st.orders && !(st.orders[id].kind.Pickup? && t.Cancelled?)
    ensures Loaded(OrderUpdated(st, id, t, v, d))
  {
    var after := OrderUpdated(st, id, t, v, d);
    forall o | o in after.orders ensures OrderLoaded(after.goods, after.orders[o]) {
      assert OrderLoaded(st.goods, st.orders[o]);
    }
  }

  lemma UpdateAndLoad(st: State, c: Call)
    requires Loaded(st) && c.request.DoUpdateOrder?
    ensures Loaded(After(st, c)) <==> LoadGuard(st, c)
  {
    var r := c.request;
    if MayUpdateOrder(st, r.id, r.to, r.vehicle, r.driver, c.actor, c.now) {
      if st.orders[r.id].kind.Pickup? && r.to.Cancelled? {
        CancelAndLoad(st, r.id, r.vehicle, r.driver);
      } else {
        MoveStaysLoaded(st, r.id, r.to, r.vehicle, r.driver);
      }
    }
  }

  lemma CreateStaysLoaded(st: State, c: Call)
    requires Loaded(st) && Linked(st) && c.request.DoCreateOrder?
    ensures Loaded(After(st, c))
  {
    var r := c.request;
    if MayCreate(st, r.id, r.order, c.actor, c.now) {
      CreatedStaysLoaded(st, r.id, r.order, OnBehalf(c.actor, r.order.customer));
    }
  }

  lemma CreatedStaysLoaded(st: State, id: Id, req: OrderRequest, c: Id)
    requires Loaded(st) && Linked(st) && id !in st.orders
    ensures Loaded(Created(st, id, req, c))
  {
    var after := Created(st, id, req, c);
    forall o | o in after.orders ensures OrderLoaded(after.goods, after.orders[o]) {
      if o != id { assert OrderLoaded(st.goods, st.orders[o]); }
    }
  }

  lemma ReceivedStaysLoaded(st: State, id: Id)
    requires Loaded(st) && Linked(st) && id in st.orders
    ensures Loaded(Received(st, id)) && Loaded(Finished(st, id))
  {
    StaysLoaded(st, Received(st, id));
    StaysLoaded(st, Finished(st, id));
  }

  lemma FinishingStaysLoaded(st: State, c: Call)
    requires Loaded(st) && Linked(st) && (c.request.DoReceive? || c.request.DoSubmitPod?)
    ensures Loaded(After(st, c))
  {
    if c.request.id in st.orders {
      ReceivedStaysLoaded(st, c.request.id);
    }
  }

  lemma TenancyStaysLoaded(st: State, c: Call)
    requires Loaded(st) && Linked(st)
      && (c.request.DoChangeWarehouse? || c.request.DoDeleteUser? || c.request.DoRegister?)
    ensures Loaded(After(st, c))
  {
    var r := c.request;
    if r.DoChangeWarehouse? {
      ChangedStaysLoaded(st, c.actor.id, r.source, r.target);
    } else if r.DoDeleteUser? {
      DeletedStaysLoaded(st, r.id);
    } else {
      RegisteredStaysLoaded(st, r.id, r.goods.Row(OnBehalf(c.actor, r.goods.customer)));
    }
  }

  lemma ChangedStaysLoaded(st: State, customer: Id, source: Id, target: Id)
    requires Loaded(st) && Linked(st)
    ensures Loaded(Changed(st, customer, source, target))
  {
    StaysLoaded(st, Changed(st, customer, source, target));
  }

  lemma DeletedStaysLoaded(st: State, customer: Id)
    requires Loaded(st) && Linked(st)
    ensures Loaded(Deleted(st, customer))
  {
    StaysLoaded(st, Deleted(st, customer));
  }

  /** No order carries a good that is registered only now. */
  lemma RegisteredStaysLoaded(st: State, id: Id, row: Goods)
    requires Loaded(st) && Linked(st)
    ensures id !in st.goods ==> Loaded(st.(goods := st.goods[id := row]))
  {
    if id !in st.goods { StaysLoaded(st, st.(goods := st.goods[id := row])); }
  }

  lemma MovingStaysLoaded(st: State, c: Call)
    requires Loaded(st) && Linked(st) && (c.request.DoTransferSlot? || c.request.DoReconcile?)
    ensures Loaded(After(st, c))
  {
    if c.request.DoTransferSlot? && c.request.id in st.goods {
      TransferredStaysLoaded(st, c.request.id, c.request.target);
    }
  }

  lemma TransferredStaysLoaded(st: State, id: Id, target: Id)
    requires Loaded(st) && Linked(st) && id in st.goods
    ensures Loaded(Transferred(st, id, target))
  {
    StaysLoaded(st, Transferred(st, id, target));
  }

  lemma OthersStayLoaded(st: State, c: Call)
    requires Linked(st) && Loaded(st) && !c.request.DoUpdateStatus? && !c.request.DoUpdateOrder?
    ensures Loaded(After(st, c))
  {
    var r := c.request;
    if r.DoCreateOrder? {
      CreateStaysLoaded(st, c);
    } else if r.DoReceive? || r.DoSubmitPod? {
      FinishingStaysLoaded(st, c);
    } else if r.DoChangeWarehouse? || r.DoDeleteUser? || r.DoRegister? {
      TenancyStaysLoaded(st, c);
    } else if r.DoTransferSlot? || r.DoReconcile? {
      MovingStaysLoaded(st, c);
    }
  }

  /** Every request keeps the trucks loaded exactly under its guard. */
  lemma StepAndLoad(st: State, c: Call)
    requires Linked(st) && Loaded(st)
    ensures Loaded(After(st, c)) <==> LoadGuard(st, c)
  {
    var r := c.request;
    if r.DoUpdateStatus? {
      StatusAndLoad(st, c);
    } else if r.DoUpdateOrder? {
      UpdateAndLoad(st, c);
    } else {
      OthersStayLoaded(st, c);
    }
  }

  ghost predicate LoadedThroughout(st: State, calls: seq<Call>)
    decreases |calls|
  {
    Loaded(st) && (calls == [] || LoadedThroughout(After(st, calls[0]), calls[1..]))
  }

  /** A run keeps them loaded throughout exactly when each of its requests meets the guard. */
  lemma {:induction false} LoadIsExact(st: State, calls: seq<Call>)
    requires Sound(st) && Loaded(st)
    ensures LoadedThroughout(st, calls) <==> Guarded(st, calls, LoadGuard)
    decreases |calls|
  {
    if calls != [] {
      StepAndLoad(st, calls[0]);
      StepKeepsSound(st, calls[0]);
      if LoadGuard(st, calls[0]) {
        LoadIsExact(After(st, calls[0]), calls[1..]);
      }
    }
  }
}
