/** The goods requests as they run: rows written one after another, and the caches of the touched
    slots and warehouse recomputed. */
module GoodsRequests {
  import opened Domain
  import opened Quantities
  import opened Sums
  import opened Capacity
  import opened Inventory
  import opened Tables
  import Pricing

  /** Recalculating some slots and then others is recalculating them all. */
  lemma RecalculateBoth(slots: map<Id, Slot>, goods: map<Id, Goods>, first: set<Id>, second: set<Id>)
    ensures RecalculatedSlots(RecalculatedSlots(slots, goods, first), goods, second)
         == RecalculatedSlots(slots, goods, first + second)
  {
  }

  lemma RecalculateNone(slots: map<Id, Slot>, goods: map<Id, Goods>)
    ensures RecalculatedSlots(slots, goods, {}) == slots
  {
  }

  lemma ReadOne(rentals: map<Id, Invoice>, i: Id)
    requires i in rentals
    ensures Sum(Volumes(rentals)) == rentals[i].volume + Sum(Volumes(rentals - {i}))
  {
    Pick(Volumes(rentals), i);
    assert Volumes(rentals) - {i} == Volumes(rentals - {i});
  }

  ghost predicate IsLatestEnd(rentals: map<Id, Invoice>, end: Option<int>) {
    && end.Some?
    && (exists i :: i in rentals && end.value == EndOf(rentals[i]))
    && (forall i :: i in rentals ==> EndOf(rentals[i]) <= end.value)
  }

  ghost predicate NoneEndsLater(rentals: map<Id, Invoice>, unread: map<Id, Invoice>, end: Option<int>) {
    end.Some? && forall i :: i in rentals && i !in unread ==> EndOf(rentals[i]) <= end.value
  }

  class GoodsService {
    const db: Database

    constructor (db: Database)
      ensures this.db == db
    {
      this.db := db;
    }

    method RecalculateSlot(s: Id) returns (used: int)
      modifies db
      ensures db.Snapshot() == old(db.Snapshot()).(slots := RecalculatedSlots(old(db.slots), old(db.goods), {s}))
      ensures s in db.slots ==> used == db.slots[s].used
    {
      if s !in db.slots { return 0; }
      var stored := db.Aggregate(StoredInSlot(s), VolumeOf, {});
      assert db.goods - {} == db.goods;
      used := ToFixed(stored, 100);
      var slot := db.slots[s];
      var status := SlotStatus.Available;
      if slot.status == SlotStatus.Maintenance {
        status := SlotStatus.Maintenance;
      } else if used != 0 {
        status := Occupied;
      }
      db.slots := db.slots[s := slot.(used := used, status := status)];
    }

    method RecalculateWarehouse(w: Id) returns (used: int)
      modifies db
      ensures db.Snapshot() == old(db.Snapshot()).(houses := RecalculatedHouses(old(db.houses), old(db.goods), {w}))
      ensures used == ToFixed(HouseVolume(db.goods, w), 100)
    {
      var stored := db.Aggregate(StoredInHouse(w), VolumeOf, {});
      assert db.goods - {} == db.goods;
      used := ToFixed(stored, 100);
      if w in db.houses {
        db.houses := db.houses[w := db.houses[w].(used := used)];
      }
    }

    method RecalculateSlots(touched: set<Id>)
      modifies db
      ensures db.Snapshot() == old(db.Snapshot()).(slots := RecalculatedSlots(old(db.slots), old(db.goods), touched))
    {
      ghost var was := db.Snapshot();
      var rest := touched;
      RecalculateNone(db.slots, db.goods);
      while rest != {}
        invariant rest <= touched
        invariant db.Snapshot() == was.(slots := RecalculatedSlots(was.slots, was.goods, touched - rest))
      {
        var s :| s in rest;
        var _ := RecalculateSlot(s);
        RecalculateBoth(was.slots, was.goods, touched - rest, {s});
        rest := rest - {s};
        assert touched - rest == touched - (rest + {s}) + {s};
      }
      assert touched - rest == touched;
    }

    method RecalculateWarehouses(touched: set<Id>)
      modifies db
      ensures db.Snapshot() == old(db.Snapshot()).(houses := RecalculatedHouses(old(db.houses), old(db.goods), touched))
    {
      ghost var was := db.Snapshot();
      var rest := touched;
      while rest != {}
        invariant rest <= touched
        invariant db.Snapshot() == was.(houses := RecalculatedHouses(was.houses, was.goods, touched - rest))
      {
        var w :| w in rest;
        var _ := RecalculateWarehouse(w);
        rest := rest - {w};
      }
      assert touched - rest == touched;
    }

    method ReconcileAll()
      modifies db
      ensures db.Snapshot() == Reconciled(old(db.Snapshot()))
    {
      RecalculateSlots(db.slots.Keys);
      RecalculateWarehouses(db.houses.Keys);
    }

    /** Whether the goods fit into what the other stored rows leave of a slot. */
    method Fits(id: Id, s: Id) returns (ok: bool)
      requires id in db.goods && s in db.slots
      ensures ok == HasRoom(db.goods, id, s, db.slots[s])
    {
      var g, slot := db.goods[id], db.slots[s];
      var usedVolume := db.Aggregate(StoredInSlot(s), VolumeOf, {id});
      var usedWeight := db.Aggregate(StoredInSlot(s), WeightOf, {id});
      assert usedVolume == SlotVolume(db.goods - {id}, s) && usedWeight == SlotWeight(db.goods - {id}, s);
      var availableVolume := Max(0, 100 * ToFixed(100 * slot.capacity - usedVolume, 100));
      var availableWeight := Max(0, 10 * ToFixed(50 * slot.capacity - usedWeight, 10));
      ok := g.volume <= availableVolume && g.weight <= availableWeight;
    }

    method SlotTakes(id: Id, s: Id) returns (ok: bool)
      requires id in db.goods
      ensures ok == Takes(db.Snapshot(), id, s)
    {
      if s !in db.slots { return false; }
      var slot, g := db.slots[s], db.goods[id];
      if slot.warehouse != g.warehouse || slot.status == SlotStatus.Maintenance { return false; }
      if g.requiresCold && slot.zone != ColdStorage { return false; }
      ok := Fits(id, s);
    }

    /** Write one row, then recalculate its slots, if any, and its warehouse. */
    method Write(id: Id, row: Goods, first: Option<Id>, second: Option<Id>)
      modifies db
      ensures db.Snapshot() == Moved(old(db.Snapshot()), id, row, SlotSet(first) + SlotSet(second))
    {
      db.goods := db.goods[id := row];
      ghost var was := db.Snapshot();
      RecalculateNone(db.slots, db.goods);
      if first.Some? {
        var _ := RecalculateSlot(first.value);
      }
      if second.Some? && second != first {
        var _ := RecalculateSlot(second.value);
      }
      RecalculateBoth(was.slots, was.goods, SlotSet(first), SlotSet(second));
      var _ := RecalculateWarehouse(row.warehouse);
    }

    /** Confirm every received inbound order of these goods that is now stored completely. */
    method ConfirmInbound(id: Id)
      modifies db
      ensures db.Snapshot() == old(db.Snapshot()).(orders := InboundConfirmed(old(db.orders), old(db.goods), id))
    {
      ghost var was := db.orders;
      var received := set o | o in db.orders && AwaitsStorage(db.orders[o], id);
      var rest := received;
      while rest != {}
        invariant rest <= received && db.Snapshot() == old(db.Snapshot()).(orders := db.orders)
        invariant db.orders.Keys == was.Keys
        invariant forall o :: o in was ==>
          db.orders[o] == if o in received - rest then ConfirmedIfStored(was[o], db.goods) else was[o]
      {
        var o :| o in rest;
        if AllStored(db.goods, db.orders[o].items) {
          db.orders := db.orders[o := db.orders[o].(status := Confirmed)];
        }
        rest := rest - {o};
      }
      assert db.orders == InboundConfirmed(was, db.goods, id);
    }

    method PutAway(id: Id, slotArg: Option<Id>) returns (ok: bool)
      requires id in db.goods
      modifies db
      ensures ok == MayPutAway(old(db.Snapshot()), id, slotArg)
      ensures db.Snapshot() == if ok
          then Inventory.PutAway(old(db.Snapshot()), id, PutTarget(old(db.Snapshot()), id, slotArg).value)
                               else old(db.Snapshot())
    {
      var g := db.goods[id];
      if !g.status.Inspecting? && !g.status.Stored? { return false; }
      var target := if slotArg.Some? then slotArg else g.slot;
      if target.None? { return false; }
      ok := SlotTakes(id, target.value);
      if ok {
        Write(id, g.(status := Stored, slot := target), target, g.slot);
        ConfirmInbound(id);
      }
    }

    method UpdateStatus(id: Id, status: GoodsStatus, slotArg: Option<Id>, actor: Actor) returns (ok: bool)
      modifies db
      ensures Does(Inventory.UpdateStatus(old(db.Snapshot()), id, status, slotArg, actor), ok,
                   old(db.Snapshot()), db.Snapshot())
    {
      if id !in db.goods { return false; }
      var g := db.goods[id];
      if actor.role.Customer? && g.owner != actor.id { return false; }
      if !MaySetGoods(actor.role, status) || !GoodsMay(g.status, status) { return false; }
      ok := true;
      if status.Stored? {
        ok := PutAway(id, slotArg);
      } else {
        Leave(id, status);
      }
    }

    method Leave(id: Id, status: GoodsStatus)
      requires id in db.goods
      modifies db
      ensures db.Snapshot() == Inventory.Leave(old(db.Snapshot()), id, status)
    {
      var g := db.goods[id];
      var kept := if status.Delivered? || status.Cancelled? then None else g.slot;
      Write(id, g.(status := status, slot := kept), g.slot, None);
    }

    method TransferSlot(id: Id, target: Id, actor: Actor) returns (ok: bool)
      modifies db
      ensures Does(Inventory.TransferSlot(old(db.Snapshot()), id, target, actor), ok, old(db.Snapshot()), db.Snapshot())
    {
      if !actor.role.Admin? || id !in db.goods { return false; }
      var g := db.goods[id];
      if !g.status.Stored? || g.slot.None? || g.slot.value == target || g.slot.value !in db.slots { return false; }
      var takes := SlotTakes(id, target);
      if !takes { return false; }
      Write(id, g.(slot := Some(target)), g.slot, Some(target));
      assert SlotSet(g.slot) + {target} == {target} + SlotSet(g.slot);
      ok := true;
    }

    /** The rental agreements' volume, the newest one's storage type and the latest end, newest first. */
    method ReadRentals(rentals: map<Id, Invoice>) returns (total: int, zone: Option<Zone>, latestEnd: Option<int>)
      ensures total == Sum(Volumes(rentals))
      ensures rentals == map[] ==> zone == None && latestEnd == None
      ensures rentals != map[] ==> IsLatestEnd(rentals, latestEnd)
      ensures rentals != map[] ==> exists i :: IsNewest(rentals, i) && zone == Some(rentals[i].zone)
    {
      total, zone, latestEnd := 0, None, None;
      var rest := rentals;
      ghost var first: Option<Id>, last: Option<Id> := None, None;
      while rest != map[]
        invariant rest.Keys <= rentals.Keys && forall i :: i in rest ==> rest[i] == rentals[i]
        invariant total + Sum(Volumes(rest)) == Sum(Volumes(rentals))
        invariant rest == rentals ==> zone == None && latestEnd == None
        invariant rest != rentals ==>
            first.Some? && IsNewest(rentals, first.value) && zone == Some(rentals[first.value].zone)
        invariant rest != rentals ==>
            last.Some? && last.value in rentals && latestEnd == Some(EndOf(rentals[last.value]))
        invariant rest != rentals ==> NoneEndsLater(rentals, rest, latestEnd)
        decreases rest.Keys
      {
        NewestExists(rest);
        var i :| i in rest && IsNewest(rest, i);
        ReadOne(rest, i);
        total := total + rest[i].volume;
        if zone.None? {
          zone := Some(rest[i].zone);
          first := Some(i);
        }
        if latestEnd.None? || latestEnd.value < EndOf(rest[i]) {
          latestEnd, last := Some(EndOf(rest[i])), Some(i);
        }
        rest := rest - {i};
      }
    }

    /** The rented space: volume, storage type and end of the newest agreements, with their fallbacks. */
    method RentedSpace(c: Id, w: Id, actor: Actor, now: int) returns (space: Option<(int, Zone, bool)>)
      requires w in db.houses
      ensures var rentals := Rentals(db.invoices, c, w);
        var known := Sum(Volumes(rentals)) != 0 || !actor.role.Customer? || KnownTenant(db.goods, c, w);
        space == if known then Some((Allotment(Sum(Volumes(rentals))), StorageType(rentals, db.houses[w]),
          Expired(rentals, now)))
                 else None
    {
      var rentals := Rentals(db.invoices, c, w);
      var total, zone, latestEnd := ReadRentals(rentals);
      if zone.Some? { OnlyOneIsNewest(rentals); }
      if total == 0 {
        if actor.role.Customer? && !KnownTenant(db.goods, c, w) { return None; }
        total, latestEnd := LEGACY_ALLOTMENT, Some(now + 365 * Pricing.DAY);
      }
      var kind := if zone.Some? then zone.value else if db.houses[w].coldByDefault then ColdStorage else Standard;
      var expired := latestEnd.Some? && latestEnd.value < now;
      space := Some((total, kind, expired));
    }

    method Create(id: Id, dto: GoodsDto, actor: Actor, now: int) returns (ok: bool)
      modifies db
      ensures Does(Register(old(db.Snapshot()), id, dto, actor, now), ok, old(db.Snapshot()), db.Snapshot())
    {
      if actor.role.Driver? { return false; }
      var c, w := OnBehalf(actor, dto.customer), dto.warehouse;
      if c !in db.users || w !in db.houses || !db.houses[w].active || id in db.goods { return false; }
      var space := RentedSpace(c, w, actor, now);
      if space.None? { return false; }
      var (total, kind, expired) := space.value;
      if kind.ColdStorage? != dto.Cold() || expired { return false; }
      var occupiedVolume := db.Aggregate(OccupiedBy(c, w), VolumeOf, {});
      var occupiedWeight := db.Aggregate(OccupiedBy(c, w), WeightOf, {});
      assert db.goods - {} == db.goods;
      if total + 1 < occupiedVolume + dto.Volume() || total + 1 < occupiedWeight + dto.weight { return false; }
      db.goods := db.goods[id := dto.Row(c)];
      ok := true;
    }
  }
}
