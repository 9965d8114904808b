/** What one request undoes of another, and what is given up for good. */
module Undoing {
  import opened Domain
  import opened Sums
  import opened Capacity
  import opened Inventory
  import opened Fleet
  import opened Dispatch
  import opened System
  import opened ReservationTheorems
  import opened FleetTheorems

  // ---- a transfer and its way back ----

  lemma RecalculateAgain(slot: Slot, stored: int, meanwhile: int)
    requires slot == Recalculated(slot, stored)
    ensures Recalculated(Recalculated(slot, meanwhile), stored) == slot
  {
  }

  lemma SlotsBack(st: State, meanwhile: map<Id, Goods>, touched: set<Id>)
    requires UpToDate(st)
    ensures RecalculatedSlots(RecalculatedSlots(st.slots, meanwhile, touched), st.goods, touched) == st.slots
  {
    var back := RecalculatedSlots(RecalculatedSlots(st.slots, meanwhile, touched), st.goods, touched);
    forall s | s in st.slots ensures back[s] == st.slots[s] {
      assert SlotUpToDate(st, s);
      RecalculateAgain(st.slots[s], SlotVolume(st.goods, s), SlotVolume(meanwhile, s));
    }
  }

  lemma HousesBack(st: State, meanwhile: map<Id, Goods>, touched: set<Id>)
    requires UpToDate(st)
    ensures RecalculatedHouses(RecalculatedHouses(st.houses, meanwhile, touched), st.goods, touched) == st.houses
  {
    var back := RecalculatedHouses(RecalculatedHouses(st.houses, meanwhile, touched), st.goods, touched);
    forall w | w in st.houses ensures back[w] == st.houses[w] {
      assert HouseUpToDate(st, w);
    }
  }

  lemma MovedBack(st: State, id: Id, row: Goods, touched: set<Id>)
    requires UpToDate(st) && id in st.goods && row.warehouse == st.goods[id].warehouse
    ensures Moved(Moved(st, id, row, touched), id, st.goods[id], touched) == st
  {
    var meanwhile := st.goods[id := row];
    assert meanwhile[id := st.goods[id]] == st.goods;
    SlotsBack(st, meanwhile, touched);
    HousesBack(st, meanwhile, {row.warehouse});
  }

  /** Transferring goods to another slot and back restores every table, caches included. */
  lemma TransferBackRestores(st: State, id: Id, target: Id)
    requires UpToDate(st) && id in st.goods && st.goods[id].slot.Some?
    ensures Transferred(Transferred(st, id, target), id, st.goods[id].slot.value) == st
  {
    var g := st.goods[id];
    var touched := {target} + SlotSet(g.slot);
    assert {g.slot.value} + SlotSet(Some(target)) == touched;
    MovedBack(st, id, g.(slot := Some(target)), touched);
  }

  /** The way back is accepted exactly when the old slot would take the goods today, and restores
      every table then. */
  lemma TransferBackIsAccepted(st: State, id: Id, target: Id, actor: Actor)
    requires UpToDate(st) && MayTransfer(st, id, target, actor)
    ensures var source := st.goods[id].slot.value;
      TransferSlot(Transferred(st, id, target), id, source, actor)
      == if Takes(st, id, source) then Accepted(st) else Refused
  {
    TransferBackRestores(st, id, target);
    MovedIsTakenAlike(st, id, target, st.goods[id].slot.value);
    MayTransferBack(st, id, target, actor);
  }

  /** Moving goods changes no check of theirs: capacity, zone, place and maintenance stay, and the
      goods themselves are not counted. */
  lemma MovedIsTakenAlike(st: State, id: Id, target: Id, s: Id)
    requires id in st.goods
    ensures Takes(Transferred(st, id, target), id, s) <==> Takes(st, id, s)
  {
    var there := Transferred(st, id, target);
    assert there.goods - {id} == st.goods - {id};
    if s in st.slots {
      assert there.slots[s].(used := 0, status := Occupied) == st.slots[s].(used := 0, status := Occupied);
      RoomIsAlike(st.goods, there.goods, id, s, st.slots[s], there.slots[s]);
    }
  }

  lemma RoomIsAlike(goods: map<Id, Goods>, after: map<Id, Goods>, id: Id, s: Id, slot: Slot, slot': Slot)
    requires id in goods && id in after && after - {id} == goods - {id} && slot'.capacity == slot.capacity
    requires after[id].volume == goods[id].volume && after[id].weight == goods[id].weight
    ensures HasRoom(after, id, s, slot') <==> HasRoom(goods, id, s, slot)
  {
  }

  lemma MayTransferBack(st: State, id: Id, target: Id, actor: Actor)
    requires MayTransfer(st, id, target, actor)
    ensures var there, source := Transferred(st, id, target), st.goods[id].slot.value;
      MayTransfer(there, id, source, actor) <==> Takes(there, id, source)
  {
  }

  // ---- an order and its cancellation ----

  function Cancelling(st: State, id: Id): State
    requires id in st.orders
  {
    OrderUpdated(st, id, OrderStatus.Cancelled, Absent, Absent)
  }

  /** Cancelling gives back exactly the packages the order had claimed. */
  lemma CancelReleases(orders: map<Id, Order>, id: Id, g: Id, kind: OrderType)
    requires id in orders && Reserving(orders[id].status)
    ensures var after := orders[id := orders[id].(status := OrderStatus.Cancelled)]; var o := orders[id];
      ReservedQuantity(after, g, kind)
      == ReservedQuantity(orders, g, kind) - if o.kind == kind && g in o.items then o.items[g] else 0
  {
    var before, after := Claims(orders, g, kind),
      Claims(orders[id := orders[id].(status := OrderStatus.Cancelled)], g, kind);
    Drop(before, id);
    assert after == before - {id};
  }

  lemma CancelUndoesClaims(st: State, id: Id, req: OrderRequest, c: Id, g: Id, kind: OrderType)
    requires id !in st.orders
    ensures ReservedQuantity(Cancelling(Created(st, id, req, c), id).orders, g, kind)
        == ReservedQuantity(st.orders, g, kind)
  {
    var created := Created(st, id, req, c);
    OneMoreClaim(st.orders, id, NewOrder(st, req, c), g, kind);
    CancelReleases(created.orders, id, g, kind);
  }

  /** Creating an order and cancelling it claims nothing in the end; the goods are as before exactly
      when it was a delivery or none of them was waiting for pickup already. */
  lemma CancelUndoesCreate(st: State, id: Id, req: OrderRequest, c: Id)
    requires id !in st.orders && GoodsAccepted(st, req, c)
    ensures var end := Cancelling(Created(st, id, req, c), id);
      && (forall g, kind :: ReservedQuantity(end.orders, g, kind) == ReservedQuantity(st.orders, g, kind))
      && (end.goods == st.goods <==>
            req.kind.Delivery? || forall g :: g in Wanted(req, st.goods) ==> !st.goods[g].status.PendingPickup?)
  {
    var end := Cancelling(Created(st, id, req, c), id);
    forall g, kind ensures ReservedQuantity(end.orders, g, kind) == ReservedQuantity(st.orders, g, kind) {
      CancelUndoesClaims(st, id, req, c, g, kind);
    }
    CancelUndoesGoods(st.goods, req.kind, NewOrder(st, req, c));
    forall g | g in Wanted(req, st.goods) ensures g in st.goods && Ready(req.kind, st.goods[g]) {
      assert Suits(req, c, st.goods[g], Wanted(req, st.goods)[g]);
    }
  }

  lemma CancelUndoesGoods(goods: map<Id, Goods>, kind: OrderType, o: Order)
    requires o.kind == kind
    requires forall g :: g in o.items ==> g in goods && Ready(kind, goods[g])
    ensures SyncedGoods(Scheduled(goods, kind, o.items), o, OrderStatus.Cancelled) == goods
       <==> kind.Delivery? || forall g :: g in o.items ==> !goods[g].status.PendingPickup?
  {
    var end := SyncedGoods(Scheduled(goods, kind, o.items), o, OrderStatus.Cancelled);
    if g :| kind.Pickup? && g in o.items && goods[g].status.PendingPickup? {
      assert end[g].status.Draft?;
    } else {
      forall g | g in goods ensures end[g] == goods[g] { }
      assert end == goods;
    }
  }

  // ---- a delivery and the vehicle it frees ----

  /** Delivering an order frees its vehicle: it can be selected for the same cargo again at once. */
  lemma DeliveryFreesVehicle(st: State, id: Id)
    requires Exclusive(st.orders) && id in st.orders && Dispatched(st.orders[id].status)
    requires st.orders[id].vehicle.Some? && Carried(st.vehicles, st.orders[id])
    ensures var v, after := st.orders[id].vehicle.value, Finished(st, id);
      && v in after.vehicles
      && EvaluateVehicle(after.vehicles[v], st.orders[id].CargoOf(), |OnVehicle(after.orders, v, None)|)
        == Suitability(true, true)
  {
    var v, after := st.orders[id].vehicle.value, Finished(st, id);
    forall o | o in st.orders && o != id && Dispatched(st.orders[o].status) ensures st.orders[o].vehicle != Some(v) {
      assert Apart(st.orders[id], st.orders[o]);
    }
    assert OnVehicle(after.orders, v, None) == {};
  }

  // ---- slots given up ----

  /** Goods that have left, or never came, hold no slot. */
  ghost predicate Vacated(st: State) {
    forall g :: g in st.goods && !Occupying(st.goods[g].status) ==> st.goods[g].slot.None?
  }

  lemma MovedVacates(st: State, id: Id, row: Goods, touched: set<Id>)
    requires Vacated(st) && (Occupying(row.status) || row.slot.None?)
    ensures Vacated(Moved(st, id, row, touched))
  {
  }

  lemma StatusVacates(st: State, c: Call)
    requires Vacated(st) && c.request.DoUpdateStatus?
    ensures Vacated(After(st, c))
  {
    var r := c.request;
    if MayUpdateStatus(st, r.id, r.status, r.slot, c.actor) {
      var g := st.goods[r.id];
      if r.status.Stored? {
        var s := PutTarget(st, r.id, r.slot).value;
        MovedVacates(st, r.id, g.(status := Stored, slot := Some(s)), {s} + SlotSet(g.slot));
      } else {
        MovedVacates(st, r.id, g.(status := r.status, slot := if Occupying(r.status) then g.slot else None),
          SlotSet(g.slot));
      }
    }
  }

  lemma OrdersVacate(st: State, c: Call)
    requires Vacated(st) && (c.request.DoCreateOrder? || c.request.DoUpdateOrder?)
    ensures Vacated(After(st, c))
  {
    match c.request
    case DoCreateOrder(id, req) =>
      if MayCreate(st, id, req, c.actor, c.now) { ScheduledVacates(st, req.kind, Wanted(req, st.goods)); }
    case DoUpdateOrder(id, t, v, d) =>
      if id in st.orders { SyncedVacates(st, st.orders[id], t); }
  }

  lemma ScheduledVacates(st: State, kind: OrderType, items: map<Id, nat>)
    requires Vacated(st)
    ensures Vacated(st.(goods := Scheduled(st.goods, kind, items)))
  {
  }

  lemma SyncedVacates(st: State, o: Order, t: OrderStatus)
    requires Vacated(st)
    ensures Vacated(st.(goods := SyncedGoods(st.goods, o, t)))
  {
  }

  lemma OthersVacate(st: State, c: Call)
    requires Vacated(st)
    requires c.request.DoTransferSlot? || c.request.DoReceive? || c.request.DoChangeWarehouse? ||
        c.request.DoDeleteUser?
    ensures Vacated(After(st, c))
  {
    match c.request
    case DoTransferSlot(id, target) =>
      if MayTransfer(st, id, target, c.actor) {
        MovedVacates(st, id, st.goods[id].(slot := Some(target)), {target} + SlotSet(st.goods[id].slot));
      }
    case DoReceive(_, _) =>
    case DoChangeWarehouse(_, _) =>
    case DoDeleteUser(_) =>
  }

  /** In every reachable state, whatever ran, delivered and cancelled goods occupy no slot. */
  lemma NothingGoneHoldsASlot(st: State, calls: seq<Call>)
    requires Vacated(st)
    ensures Vacated(Run(st, calls))
  {
    forall s, c | Vacated(s) && Always(s, c) ensures Vacated(After(s, c)) {
      StepVacates(s, c);
    }
    Unguarded(st, calls);
    RunKeeps(Vacated, Always, st, calls);
  }

  lemma StepVacates(st: State, c: Call)
    requires Vacated(st)
    ensures Vacated(After(st, c))
  {
    if c.request.DoUpdateStatus? {
      StatusVacates(st, c);
    } else if c.request.DoCreateOrder? || c.request.DoUpdateOrder? {
      OrdersVacate(st, c);
    } else if c.request.DoTransferSlot? || c.request.DoReceive? || c.request.DoChangeWarehouse? ||
      c.request.DoDeleteUser? {
      OthersVacate(st, c);
    }
  }
}
