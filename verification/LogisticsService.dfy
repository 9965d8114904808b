/** The delivery-order requests as they run. */
module LogisticsRequests {
  import opened Domain
  import opened Quantities
  import opened Fleet
  import opened Dispatch
  import opened Tables
  import Shares

  predicate Found(ids: seq<Id>, goods: map<Id, Goods>) {
    forall g :: g in ids ==> g in goods
  }

  function RowsFound(ids: seq<Id>, goods: map<Id, Goods>): set<Id> {
    set g | g in ids && g in goods
  }

  /** As many rows come back as ids were sent exactly when every id is found and none is repeated. */
  lemma {:induction false} EachIsFound(ids: seq<Id>, goods: map<Id, Goods>)
    ensures |RowsFound(ids, goods)| <= |ids|
    ensures |RowsFound(ids, goods)| == |ids| <==> Distinct(ids) && Found(ids, goods)
  {
    if ids == [] {
      assert RowsFound(ids, goods) == {};
    } else {
      var rest, last := ids[..|ids| - 1], ids[|ids| - 1];
      EachIsFound(rest, goods);
      assert ids == rest + [last];
      assert RowsFound(ids, goods) == RowsFound(rest, goods) + if last in goods then {last} else {};
      assert Found(ids, goods) <==> Found(rest, goods) && last in goods;
      assert Distinct(ids) <==> Distinct(rest) && last !in rest;
    }
  }

  /** Taking one good off the rest of a cargo. */
  lemma TakeOne(goods: map<Id, Goods>, wanted: map<Id, nat>, rest: map<Id, nat>, g: Id)
    requires rest.Keys <= wanted.Keys <= goods.Keys && g in rest
    ensures Shares.Total(VolumeShares(goods, rest))
         == VolumeShare(goods[g], rest[g]) + Shares.Total(VolumeShares(goods, rest - {g}))
    ensures Shares.Total(WeightShares(goods, rest))
         == WeightShare(goods[g], rest[g]) + Shares.Total(WeightShares(goods, rest - {g}))
    ensures AnyCold(goods, wanted - (rest - {g}).Keys) == (AnyCold(goods, wanted - rest.Keys) || goods[g].Cold())
  {
    Shares.Pick(VolumeShares(goods, rest), g);
    Shares.Pick(WeightShares(goods, rest), g);
    assert VolumeShares(goods, rest) - {g} == VolumeShares(goods, rest - {g});
    assert WeightShares(goods, rest) - {g} == WeightShares(goods, rest - {g});
    assert (wanted - (rest - {g}).Keys).Keys == (wanted - rest.Keys).Keys + {g};
  }

  function GoodsSet(goods: map<Id, Goods>, items: map<Id, nat>, next: GoodsStatus -> GoodsStatus): map<Id, Goods> {
    map g | g in goods :: if g in items then goods[g].(status := next(goods[g].status)) else goods[g]
  }

  class LogisticsService {
    const db: Database

    constructor (db: Database)
      ensures this.db == db
    {
      this.db := db;
    }

    /** The packages requested of each good, if every requested row is there. */
    method ReadRequest(req: OrderRequest) returns (wanted: Option<map<Id, nat>>)
      ensures wanted == if Listed(req, db.goods) then Some(Wanted(req, db.goods)) else None
    {
      if req.items != [] {
        var quantities: map<Id, nat> := map[];
        for i := 0 to |req.items|
          invariant quantities == LastQuantities(req.items[..i])
        {
          assert req.items[..i + 1][..i] == req.items[..i];
          quantities := quantities[req.items[i].0 := req.items[i].1];
        }
        assert req.items[..|req.items|] == req.items;
        return if quantities.Keys <= db.goods.Keys then Some(quantities) else None;
      }
      EachIsFound(req.goodsIds, db.goods);
      var rows := RowsFound(req.goodsIds, db.goods);
      if req.goodsIds == [] || |rows| != |req.goodsIds| { return None; }
      wanted := Some(map g | g in rows :: db.goods[g].quantity);
      assert wanted.value == Wanted(req, db.goods);
    }

    method Reserved(g: Id, kind: OrderType) returns (packages: int)
      ensures packages == ReservedQuantity(db.orders, g, kind)
    {
      packages := Reduce(Claims(db.orders, g, kind));
    }

    method CheckGoods(req: OrderRequest, c: Id, wanted: map<Id, nat>) returns (ok: bool)
      requires wanted.Keys <= db.goods.Keys
      ensures ok == forall g :: g in wanted ==> Suits(req, c, db.goods[g], wanted[g])
    {
      var rest := wanted.Keys;
      while rest != {}
        invariant rest <= wanted.Keys
        invariant forall g :: g in wanted && g !in rest ==> Suits(req, c, db.goods[g], wanted[g])
      {
        var g :| g in rest;
        if !Suits(req, c, db.goods[g], wanted[g]) { return false; }
        rest := rest - {g};
      }
      ok := true;
    }

    method CheckReservations(kind: OrderType, wanted: map<Id, nat>) returns (ok: bool)
      requires wanted.Keys <= db.goods.Keys
      ensures ok == forall g :: g in wanted ==> Claimable(db.orders, kind, g, db.goods[g].quantity, wanted[g])
    {
      var rest := wanted.Keys;
      while rest != {}
        invariant rest <= wanted.Keys
        invariant forall g :: g in wanted && g !in rest ==>
            Claimable(db.orders, kind, g, db.goods[g].quantity, wanted[g])
      {
        var g :| g in rest;
        var reserved := Reserved(g, kind);
        var available := Max(0, db.goods[g].quantity - reserved);
        if available <= 0 || available < wanted[g] { return false; }
        rest := rest - {g};
      }
      ok := true;
    }

    /** The pro-rata totals of the cargo, unrounded, and whether any of it is cold. */
    method Totals(wanted: map<Id, nat>) returns (volume: real, weight: real, reefer: bool)
      requires wanted.Keys <= db.goods.Keys
      ensures volume == Shares.Total(VolumeShares(db.goods, wanted))
      ensures weight == Shares.Total(WeightShares(db.goods, wanted))
      ensures reefer == AnyCold(db.goods, wanted)
    {
      volume, weight, reefer := 0.0, 0.0, false;
      var rest := wanted;
      while rest != map[]
        invariant rest.Keys <= wanted.Keys && forall g :: g in rest ==> rest[g] == wanted[g]
        invariant volume + Shares.Total(VolumeShares(db.goods, rest)) == Shares.Total(VolumeShares(db.goods, wanted))
        invariant weight + Shares.Total(WeightShares(db.goods, rest)) == Shares.Total(WeightShares(db.goods, wanted))
        invariant reefer == AnyCold(db.goods, wanted - rest.Keys)
        decreases rest.Keys
      {
        var g :| g in rest;
        TakeOne(db.goods, wanted, rest, g);
        volume := volume + VolumeShare(db.goods[g], rest[g]);
        weight := weight + WeightShare(db.goods[g], rest[g]);
        reefer := reefer || db.goods[g].Cold();
        rest := rest - {g};
      }
      assert VolumeShares(db.goods, rest) == map[] && WeightShares(db.goods, rest) == map[];
      assert wanted - rest.Keys == wanted;
    }

    /** The order row to insert, if the request may be served. */
    method CheckOrder(id: Id, req: OrderRequest, actor: Actor, now: int) returns (row: Option<Order>)
      ensures var st := db.Snapshot();
        row == if MayCreate(st, id, req, actor, now)
          then Some(NewOrder(st, req, OnBehalf(actor, req.customer))) else None
    {
      if actor.role.Driver? || id in db.orders { return None; }
      var c := OnBehalf(actor, req.customer);
      var wanted := ReadRequest(req);
      if wanted.None? { return None; }
      var items := wanted.value;
      var suited := CheckGoods(req, c, items);
      if !suited { return None; }
      var volume, weight, reefer := Totals(items);
      var order := Order(req.kind, c, req.driver, req.vehicle, RoundedReal(volume), RoundedReal(weight), reefer,
                         if req.driver.Some? then DriverAssigned else PendingAssignment, items);
      assert order == NewOrder(db.Snapshot(), req, c);
      var eligible := Assignable(order.CargoOf(), None, req.vehicle, req.driver, now);
      if !eligible { return None; }
      var free := CheckReservations(req.kind, items);
      if !free { return None; }
      if req.vehicle.Some? && OnVehicle(db.orders, req.vehicle.value, None) != {} { return None; }
      if req.driver.Some? && OnDriver(db.orders, req.driver.value, None) != {} { return None; }
      row := Some(order);
    }

    /** `validateDriverAndVehicleForOrder`. */
    method Assignable(cargo: Cargo, except: Option<Id>, vehicle: Option<Id>, driver: Option<Id>,
      now: int) returns (ok: bool)
      ensures ok == Eligible(db.Snapshot(), cargo, except, vehicle, driver, now)
    {
      if vehicle.Some? {
        if vehicle.value !in db.vehicles { return false; }
        var suits := EvaluateVehicle(db.vehicles[vehicle.value], cargo, |OnVehicle(db.orders, vehicle.value, except)|);
        if !suits.compatible || !suits.selectable { return false; }
      }
      if driver.Some? {
        if driver.value !in db.users { return false; }
        var suits := EvaluateDriver(db.users[driver.value], |OnDriver(db.orders, driver.value, except)|, now);
        if !suits.compatible || !suits.selectable { return false; }
      }
      ok := true;
    }

    method SetVehicle(v: Option<Id>, status: VehicleStatus)
      modifies db
      ensures db.Snapshot() == old(db.Snapshot()).(vehicles := WithVehicle(old(db.vehicles), v, status))
    {
      if v.Some? && v.value in db.vehicles {
        db.vehicles := db.vehicles[v.value := db.vehicles[v.value].(status := status)];
      }
    }

    /** Set the status of an order's goods, one row after another. */
    method SetGoods(items: map<Id, nat>, next: GoodsStatus -> GoodsStatus)
      modifies db
      ensures db.Snapshot() == old(db.Snapshot()).(goods := GoodsSet(old(db.goods), items, next))
    {
      ghost var was := db.goods;
      var rest := items.Keys;
      while rest != {}
        invariant rest <= items.Keys && db.Snapshot() == old(db.Snapshot()).(goods := db.goods)
        invariant db.goods == GoodsSet(was, items - rest, next)
      {
        var g :| g in rest;
        if g in db.goods {
          db.goods := db.goods[g := db.goods[g].(status := next(db.goods[g].status))];
        }
        rest := rest - {g};
      }
      assert items - rest == items;
    }

    method CreateOrder(id: Id, req: OrderRequest, actor: Actor, now: int) returns (ok: bool)
      modifies db
      ensures Does(Dispatch.CreateOrder(old(db.Snapshot()), id, req, actor, now), ok, old(db.Snapshot()), db.Snapshot())
    {
      var order := CheckOrder(id, req, actor, now);
      ok := order.Some?;
      if ok {
        InsertOrder(id, order.value);
      }
    }

    method InsertOrder(id: Id, order: Order)
      modifies db
      ensures var st := old(db.Snapshot());
        db.Snapshot() == st.(orders := st.orders[id := order], goods := Scheduled(st.goods, order.kind, order.items),
                             vehicles := WithVehicle(st.vehicles, order.vehicle, InService))
    {
      db.orders := db.orders[id := order];
      if order.kind.Pickup? {
        SetGoods(order.items, (s: GoodsStatus) => if s.Draft? then PendingPickup else s);
      }
      assert db.goods == Scheduled(old(db.goods), order.kind, order.items);
      SetVehicle(order.vehicle, InService);
    }

    method CheckUpdate(id: Id, t: OrderStatus, vehicle: Field, driver: Field, actor: Actor, now: int) returns (ok: bool)
      ensures ok == MayUpdateOrder(db.Snapshot(), id, t, vehicle, driver, actor, now)
    {
      if id !in db.orders { return false; }
      var o := db.orders[id];
      if actor.role.Customer? && o.customer != actor.id { return false; }
      if !MaySetOrder(actor.role, t, o.kind) || !OrderMay(o.status, t) { return false; }
      ok := CheckFleet(id, t, vehicle, driver, now);
    }

    /** The checks before the transaction and inside it, on the vehicle and driver the order would have. */
    method CheckFleet(id: Id, t: OrderStatus, vehicle: Field, driver: Field, now: int) returns (ok: bool)
      requires id in db.orders
      ensures ok == FleetAllows(db.Snapshot(), id, t, vehicle, driver, now)
    {
      var o := db.orders[id];
      var v, d := vehicle.Target(o.vehicle), driver.Target(o.driver);
      if t.DriverAssigned? || vehicle.Given? || driver.Given? {
        if t.DriverAssigned? && (v.None? || d.None?) { return false; }
        var eligible := Assignable(o.CargoOf(), Some(id), v, d, now);
        if !eligible { return false; }
      }
      if v.Some? && (t.DriverAssigned? || vehicle.Given?) &&
        OnVehicle(db.orders, v.value, Some(id)) != {} { return false; }
      if d.Some? && (t.DriverAssigned? || driver.Given?) &&
        OnDriver(db.orders, d.value, Some(id)) != {} { return false; }
      ok := true;
    }

    method UpdateOrder(id: Id, t: OrderStatus, vehicle: Field, driver: Field, actor: Actor, now: int) returns (ok: bool)
      modifies db
      ensures Does(Dispatch.UpdateOrder(old(db.Snapshot()), id, t, vehicle, driver, actor, now), ok,
                   old(db.Snapshot()), db.Snapshot())
    {
      ok := CheckUpdate(id, t, vehicle, driver, actor, now);
      if ok {
        ApplyUpdate(id, t, vehicle, driver);
      }
    }

    method ApplyUpdate(id: Id, t: OrderStatus, vehicle: Field, driver: Field)
      requires id in db.orders
      modifies db
      ensures db.Snapshot() == OrderUpdated(old(db.Snapshot()), id, t, vehicle, driver)
    {
      var o := db.orders[id];
      var row := o.(status := t);
      if driver.Given? { row := row.(driver := Some(driver.id)); }
      if vehicle.Given? { row := row.(vehicle := Some(vehicle.id)); }
      db.orders := db.orders[id := row];
      if t.DriverAssigned? {
        SetVehicle(vehicle.Target(o.vehicle), InService);
      } else if t.Delivered? || t.Cancelled? {
        SetVehicle(if vehicle.Given? then Some(vehicle.id) else o.vehicle, VehicleStatus.Available);
      }
      if o.kind.Pickup? {
        SetGoods(o.items, (s: GoodsStatus) => Synced(t, s));
      }
      assert db.goods == SyncedGoods(old(db.goods), o, t);
    }

    method ReceiveInbound(id: Id, received: nat, damaged: nat, missing: nat, actor: Actor) returns (ok: bool)
      modifies db
      ensures Does(Dispatch.ReceiveInbound(old(db.Snapshot()), id, received + damaged + missing, actor), ok,
                   old(db.Snapshot()), db.Snapshot())
    {
      if !actor.role.Admin? || id !in db.orders { return false; }
      var o := db.orders[id];
      if !o.kind.Pickup? || !o.status.ArrivedDestination? { return false; }
      if exists g :: g in o.items && g in db.goods && db.goods[g].status.Cancelled? { return false; }
      var expected := Reduce(Manifest(o.items));
      if received + damaged + missing != expected { return false; }
      db.orders := db.orders[id := o.(status := OrderStatus.Delivered)];
      SetVehicle(o.vehicle, VehicleStatus.Available);
      SetGoods(o.items, (s: GoodsStatus) => Inspecting);
      assert db.goods == Inspected(old(db.goods), o.items);
      ok := true;
    }

    method SubmitPod(id: Id, actor: Actor) returns (ok: bool)
      modifies db
      ensures Does(Dispatch.SubmitPod(old(db.Snapshot()), id, actor), ok, old(db.Snapshot()), db.Snapshot())
    {
      if id !in db.orders { return false; }
      var o := db.orders[id];
      if o.kind.Pickup? || (actor.role.Customer? && o.customer != actor.id) { return false; }
      db.orders := db.orders[id := o.(status := OrderStatus.Delivered)];
      SetVehicle(o.vehicle, VehicleStatus.Available);
      ok := true;
    }
  }
}
