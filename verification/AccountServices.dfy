/** The warehouse, billing and account requests as they run. */
module AccountRequests {
  import opened Domain
  import opened Quantities
  import opened Sums
  import opened Capacity
  import opened Inventory
  import opened Tenancy
  import opened Tables
  import opened RentalTheorems
  import opened GoodsRequests

  function WithoutItems(orders: map<Id, Order>, gone: set<Id>): map<Id, Order> {
    map o | o in orders :: orders[o].(items := orders[o].items - gone)
  }

  function WithoutOrdersOf(orders: map<Id, Order>, c: Id): map<Id, Order> {
    map o | o in orders && orders[o].customer != c :: orders[o]
  }

  function WithoutDriver(orders: map<Id, Order>, d: Id): map<Id, Order> {
    map o | o in orders :: if orders[o].driver == Some(d) then orders[o].(driver := None) else orders[o]
  }

  lemma PurgedInSteps(orders: map<Id, Order>, c: Id, gone: set<Id>)
    ensures WithoutDriver(WithoutOrdersOf(WithoutItems(orders, gone), c), c) == Purged(orders, c, gone)
  {
  }

  ghost function WithoutAccount(st: State, c: Id, gone: set<Id>): State {
    st.(goods := st.goods - gone, orders := Purged(st.orders, c, gone), users := st.users - {c},
        invoices := map i | i in st.invoices && st.invoices[i].customer != c :: st.invoices[i])
  }

  class UsersService {
    const db: Database
    const stock: GoodsService

    constructor (db: Database, stock: GoodsService)
      requires stock.db == db
      ensures this.db == db && this.stock == stock
    {
      this.db, this.stock := db, stock;
    }

    /** Rows go in the order of their references; the deleted account is unset as driver. */
    method DeleteRows(id: Id, gone: set<Id>)
      modifies db
      ensures db.Snapshot() == WithoutAccount(old(db.Snapshot()), id, gone)
    {
      var kept := WithoutItems(db.orders, gone);
      kept := WithoutOrdersOf(kept, id);
      db.invoices := map i | i in db.invoices && db.invoices[i].customer != id :: db.invoices[i];
      db.goods := db.goods - gone;
      db.orders := WithoutDriver(kept, id);
      db.users := db.users - {id};
      PurgedInSteps(old(db.orders), id, gone);
    }

    /** The slots and warehouses that held the deleted goods are recalculated. */
    method DeleteUser(id: Id, actor: Actor) returns (ok: bool)
      requires stock.db == db
      modifies db
      ensures Does(Tenancy.DeleteUser(old(db.Snapshot()), id, actor), ok, old(db.Snapshot()), db.Snapshot())
    {
      if !actor.role.Admin? || actor.id == id || id !in db.users { return false; }
      var gone := OwnedBy(db.goods, id);
      var slots := set g | g in gone && db.goods[g].slot.Some? :: db.goods[g].slot.value;
      var houses := set g | g in gone :: db.goods[g].warehouse;
      DeleteRows(id, gone);
      stock.RecalculateSlots(slots);
      stock.RecalculateWarehouses(houses);
      ok := true;
    }
  }

  /** What a customer is shown of one warehouse. */
  datatype Utilization = Utilization(stored: int, receiving: int, waiting: int, used: int, available: int)

  /** The three groups a customer is shown, each to its column's scale. */
  ghost predicate Shows(u: Utilization, goods: map<Id, Goods>, c: Id, w: Id, measure: Goods -> int) {
    && u.stored == ToFixed(Measure(goods, ShownStored(c, w), measure), 1)
    && u.receiving == ToFixed(Measure(goods, ShownReceiving(c, w), measure), 1)
    && u.waiting == ToFixed(Measure(goods, ShownWaiting(c, w), measure), 1)
  }

  class WarehouseService {
    const db: Database

    constructor (db: Database)
      ensures this.db == db
    {
      this.db := db;
    }

    /** One measure of `customerUtilization`. */
    method Utilize(c: Id, w: Id, rented: int, measure: Goods -> int) returns (u: Utilization)
      ensures Shows(u, db.goods, c, w, measure)
      ensures u.used == Measure(db.goods, OccupiedBy(c, w), measure)
      ensures u.available == Max(0, rented - u.used)
    {
      assert db.goods - {} == db.goods;
      var stored := db.Aggregate(ShownStored(c, w), measure, {});
      var receiving := db.Aggregate(ShownReceiving(c, w), measure, {});
      var waiting := db.Aggregate(ShownWaiting(c, w), measure, {});
      ShownIsEnforced(db.goods, c, w, measure);
      var used := ToFixed(ToFixed(stored, 1) + ToFixed(receiving, 1) + ToFixed(waiting, 1), 1);
      u := Utilization(ToFixed(stored, 1), ToFixed(receiving, 1), ToFixed(waiting, 1), used,
                       Max(0, ToFixed(rented - used, 1)));
    }

    method RentedVolume(c: Id, w: Id) returns (rented: int)
      ensures rented == Rented(db.invoices, c, w)
    {
      var rows := Rentals(db.invoices, c, w);
      rented := 0;
      var rest := rows;
      while rest != map[]
        invariant rest.Keys <= rows.Keys && forall i :: i in rest ==> rest[i] == rows[i]
        invariant rented + Sum(Volumes(rest)) == Sum(Volumes(rows))
        decreases rest.Keys
      {
        var i :| i in rest;
        ReadOne(rest, i);
        rented := rented + rest[i].volume;
        rest := rest - {i};
      }
    }

    /** Volume and weight of one warehouse as `getCustomerWarehouses` shows them. */
    method CustomerWarehouse(c: Id, w: Id) returns (volume: Utilization, weight: Utilization)
      ensures volume.available == ShownAvailable(db.Snapshot(), c, w, VolumeOf)
      ensures weight.available == ShownAvailable(db.Snapshot(), c, w, WeightOf)
      ensures volume.used == Measure(db.goods, OccupiedBy(c, w), VolumeOf)
      ensures weight.used == Measure(db.goods, OccupiedBy(c, w), WeightOf)
      ensures Shows(volume, db.goods, c, w, VolumeOf) && Shows(weight, db.goods, c, w, WeightOf)
    {
      AvailableIsTheRest(db.Snapshot(), c, w, VolumeOf);
      AvailableIsTheRest(db.Snapshot(), c, w, WeightOf);
      var rented := RentedVolume(c, w);
      if rented == 0 {
        rented := LEGACY_ALLOTMENT;
      }
      volume := Utilize(c, w, rented, VolumeOf);
      weight := Utilize(c, w, rented, WeightOf);
    }

    method RentSpace(id: Id, dto: RentDto, actor: Actor, start: int) returns (ok: bool)
      modifies db
      ensures Does(Tenancy.RentSpace(old(db.Snapshot()), id, dto, actor, start), ok, old(db.Snapshot()), db.Snapshot())
    {
      if actor.role.Driver? || dto.warehouse !in db.houses || id in db.invoices { return false; }
      db.invoices := db.invoices[id := NewInvoice(dto, actor.id, start)];
      ok := true;
    }

    method MayChangeWarehouse(source: Id, target: Id, actor: Actor) returns (ok: bool)
      ensures ok == MayChange(db.Snapshot(), source, target, actor)
    {
      if actor.role.Driver? || source == target || source !in db.houses || target !in db.houses { return false; }
      if !db.houses[target].active { return false; }
      var mine := OwnedIn(db.goods, actor.id, source);
      if exists g :: g in mine && Operational(db.goods[g].status) { return false; }
      ok := Rentals(db.invoices, actor.id, source) != map[] || mine != {};
    }

    /** Rental items are rewritten one after another. */
    method Reassign(c: Id, source: Id, target: Id)
      modifies db
      ensures db.Snapshot() == old(db.Snapshot()).(invoices := Reassigned(old(db.invoices), c, source, target))
    {
      ghost var was := db.invoices;
      var rentals := Rentals(db.invoices, c, source).Keys;
      var rest := rentals;
      while rest != {}
        invariant rest <= rentals <= was.Keys && db.Snapshot() == old(db.Snapshot()).(invoices := db.invoices)
        invariant db.invoices.Keys == was.Keys
        invariant forall i :: i in was ==>
          db.invoices[i] == if i in rentals - rest then was[i].(warehouse := target) else was[i]
      {
        var i :| i in rest;
        db.invoices := db.invoices[i := db.invoices[i].(warehouse := target)];
        rest := rest - {i};
      }
      assert db.invoices == Reassigned(was, c, source, target);
    }

    method ChangeWarehouse(source: Id, target: Id, actor: Actor) returns (ok: bool)
      modifies db
      ensures Does(Tenancy.ChangeWarehouse(old(db.Snapshot()), source, target, actor), ok,
                   old(db.Snapshot()), db.Snapshot())
    {
      ok := MayChangeWarehouse(source, target, actor);
      if ok {
        db.goods := Relocated(db.goods, actor.id, source, target);
        Reassign(actor.id, source, target);
      }
    }
  }
}
