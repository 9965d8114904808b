/** Which goods a rack and a rental let in: what every accepted request has to meet, and what is enough
    to be accepted. */
module GoodsAdmission {
  import opened Domain
  import opened Quantities
  import opened Sums
  import opened Capacity
  import opened Inventory
  import opened Tenancy
  import opened System
  import opened RackTheorems
  import opened PutAways
  import Pricing

  // ---- racks ----

  /** The good is stored in this slot. */
  predicate Sits(goods: map<Id, Goods>, g: Id, s: Id) {
    g in goods && goods[g].status.Stored? && goods[g].slot == Some(s)
  }

  predicate OpenSlot(slots: map<Id, Slot>, s: Id) {
    s in slots && !slots[s].status.Maintenance?
  }

  lemma StatusEntersOpenSlot(st: State, call: Call, g: Id, s: Id)
    requires call.request.DoUpdateStatus? && Sits(After(st, call).goods, g, s) && !Sits(st.goods, g, s)
    ensures OpenSlot(st.slots, s) && call.actor.role.Admin?
  {
    var r := call.request;
    if MayUpdateStatus(st, r.id, r.status, r.slot, call.actor) {
      if r.status.Stored? {
        PutAwayEntersTarget(st, r.id, PutTarget(st, r.id, r.slot).value, g, s);
      } else {
        LeavingEntersNothing(st, r.id, r.status, g, s);
      }
    }
  }

  lemma PutAwayEntersTarget(st: State, id: Id, target: Id, g: Id, s: Id)
    requires id in st.goods && Sits(PutAway(st, id, target).goods, g, s) && !Sits(st.goods, g, s)
    ensures g == id && s == target
  {
  }

  lemma LeavingEntersNothing(st: State, id: Id, t: GoodsStatus, g: Id, s: Id)
    requires id in st.goods && !t.Stored? && Sits(Leave(st, id, t).goods, g, s)
    ensures Sits(st.goods, g, s)
  {
  }

  lemma TransferEntersOpenSlot(st: State, call: Call, g: Id, s: Id)
    requires call.request.DoTransferSlot? && Sits(After(st, call).goods, g, s) && !Sits(st.goods, g, s)
    ensures OpenSlot(st.slots, s) && call.actor.role.Admin?
  {
  }

  lemma OthersEnterNothing(st: State, call: Call, g: Id, s: Id)
    requires !call.request.DoUpdateStatus? && !call.request.DoTransferSlot? && Sits(After(st, call).goods, g, s)
    ensures Sits(st.goods, g, s)
  {
    if Quiet(call.request) {
      QuietRequests(st, call);
    }
  }

  /** Whatever is requested, goods enter a slot only at an Admin's request, and never one under maintenance. */
  lemma GoodsEnterOpenSlots(st: State, call: Call, g: Id, s: Id)
    requires Sits(After(st, call).goods, g, s) && !Sits(st.goods, g, s)
    ensures OpenSlot(st.slots, s) && call.actor.role.Admin?
  {
    if call.request.DoUpdateStatus? {
      StatusEntersOpenSlot(st, call, g, s);
    } else if call.request.DoTransferSlot? {
      TransferEntersOpenSlot(st, call, g, s);
    } else {
      OthersEnterNothing(st, call, g, s);
    }
  }

  /** Cut at its calls, a request writes a slot only if that was open when it was checked. */
  lemma ChecksFindOpenSlots(ss: Sessions, t: Id)
    requires PutAways.Can(ss, Check(t))
    ensures var after := Next(ss, Check(t));
      t in after.open ==>
        && after.open[t].Ready?
        && (after.open[t].write.status.None? || after.open[t].write.status.value.Stored? ==>
              && after.open[t].write.slot.Some?
              && OpenSlot(ss.db.slots, after.open[t].write.slot.value))
  {
  }

  /** The slot is the goods' own warehouse's, open, cold if they need it, and what the others leave of it
      is enough without any rounding to help. */
  ghost predicate FitsWell(st: State, g: Id, s: Id)
    requires g in st.goods
  {
    && OpenSlot(st.slots, s) && st.slots[s].warehouse == st.goods[g].warehouse
    && (st.goods[g].requiresCold ==> st.slots[s].zone == ColdStorage)
    && SlotVolume(st.goods - {g}, s) + st.goods[g].volume <= 100 * st.slots[s].capacity - 50
    && SlotWeight(st.goods - {g}, s) + st.goods[g].weight <= 50 * st.slots[s].capacity - 5
  }

  lemma FitsWellIsTaken(st: State, g: Id, s: Id)
    requires g in st.goods && FitsWell(st, g, s)
    ensures Takes(st, g, s)
  {
  }

  /** An Admin's put-away from inspection into a slot the goods fit well is accepted: they sit there
      afterwards, and no other good changes. */
  lemma FittingPutAwayIsAccepted(st: State, g: Id, s: Id, admin: Id, now: int)
    requires g in st.goods && st.goods[g].status.Inspecting? && FitsWell(st, g, s)
    ensures var call := Call(DoUpdateStatus(g, Stored, Some(s)), Actor(admin, Admin), now);
      Apply(st, call).Accepted?
      && After(st, call).goods == st.goods[g := st.goods[g].(status := Stored, slot := Some(s))]
  {
    FitsWellIsTaken(st, g, s);
  }

  /** So is a put-away without naming a slot into the one the goods were given before. */
  lemma PutAwayReturnsToItsSlot(st: State, g: Id, s: Id, admin: Id, now: int)
    requires g in st.goods && st.goods[g].status.Inspecting? && st.goods[g].slot == Some(s) && FitsWell(st, g, s)
    ensures var call := Call(DoUpdateStatus(g, Stored, None), Actor(admin, Admin), now);
      Apply(st, call).Accepted? && After(st, call).goods == st.goods[g := st.goods[g].(status := Stored)]
  {
    FitsWellIsTaken(st, g, s);
  }

  /** And a transfer to another such slot. */
  lemma FittingTransferIsAccepted(st: State, g: Id, from: Id, s: Id, admin: Id, now: int)
    requires Sits(st.goods, g, from) && from in st.slots && from != s && FitsWell(st, g, s)
    ensures var call := Call(DoTransferSlot(g, s), Actor(admin, Admin), now);
      Apply(st, call).Accepted? && After(st, call).goods == st.goods[g := st.goods[g].(slot := Some(s))]
  {
    FitsWellIsTaken(st, g, s);
  }

  /** The goods may be kept in the slot, and what the others leave of it is enough but for the rounding. */
  ghost predicate Belongs(st: State, g: Id, s: Id)
    requires g in st.goods
  {
    && OpenSlot(st.slots, s) && st.slots[s].warehouse == st.goods[g].warehouse
    && (st.goods[g].requiresCold ==> st.slots[s].zone == ColdStorage)
    && (0 < st.goods[g].volume ==>
          SlotVolume(st.goods - {g}, s) + st.goods[g].volume <= 100 * st.slots[s].capacity + 50)
    && (0 < st.goods[g].weight ==>
          SlotWeight(st.goods - {g}, s) + st.goods[g].weight <= 50 * st.slots[s].capacity + 5)
  }

  /** Accepted put-aways take goods under inspection or on a rack already, to the slot named or else their
      own, where they belong, and change nothing else of the goods. */
  lemma PutAwayIsInOrder(st: State, call: Call)
    requires call.request.DoUpdateStatus? && call.request.status.Stored? && Apply(st, call).Accepted?
    ensures var g, named := call.request.id, call.request.slot;
      && g in st.goods && (st.goods[g].status.Inspecting? || st.goods[g].status.Stored?)
      && (named.Some? || st.goods[g].slot.Some?)
      && var s := if named.Some? then named.value else st.goods[g].slot.value;
      && Belongs(st, g, s) && After(st, call).goods == st.goods[g := st.goods[g].(status := Stored, slot := Some(s))]
  {
  }

  /** Accepted transfers take stored goods from one known slot to another where they belong. */
  lemma TransferIsInOrder(st: State, call: Call)
    requires call.request.DoTransferSlot? && Apply(st, call).Accepted?
    ensures var g, s := call.request.id, call.request.target;
      && g in st.goods && st.goods[g].status.Stored? && st.goods[g].slot.Some?
      && st.goods[g].slot.value in st.slots && st.goods[g].slot != Some(s)
      && Belongs(st, g, s) && After(st, call).goods == st.goods[g := st.goods[g].(slot := Some(s))]
  {
  }

  /** An order of these goods has been received, and now all it carries is stored. */
  predicate Complete(o: Order, goods: map<Id, Goods>, g: Id) {
    && o.kind.Pickup? && o.status.Delivered? && g in o.items
    && forall k :: k in o.items ==> k in goods && goods[k].status.Stored?
  }

  /** A put-away confirms exactly the received inbound orders it completes, and touches no other. */
  lemma PutAwayConfirmsOrders(st: State, call: Call, o: Id)
    requires call.request.DoUpdateStatus? && call.request.status.Stored? && Apply(st, call).Accepted?
    ensures o in After(st, call).orders <==> o in st.orders
    ensures o in st.orders && Complete(st.orders[o], After(st, call).goods, call.request.id) ==>
      After(st, call).orders[o] == st.orders[o].(status := Confirmed)
    ensures o in st.orders && !Complete(st.orders[o], After(st, call).goods, call.request.id) ==>
      After(st, call).orders[o] == st.orders[o]
  {
  }

  /** With caches up to date a slot shows OCCUPIED from 0.005 m3 stored on, AVAILABLE below, and its
      figure is the nearest 0.01 m3. */
  lemma SlotsTell(st: State, s: Id)
    requires UpToDate(st) && s in st.slots
    ensures !st.slots[s].status.Maintenance? ==>
      st.slots[s].status == if 50 <= SlotVolume(st.goods, s) then SlotStatus.Occupied else SlotStatus.Available
    ensures -50 <= 100 * st.slots[s].used - SlotVolume(st.goods, s) <= 50
  {
    assert SlotUpToDate(st, s);
    MeasureNonNegative(st.goods, StoredInSlot(s), VolumeOf);
    FigureTells(st.slots[s], SlotVolume(st.goods, s));
  }

  lemma FigureTells(slot: Slot, stored: int)
    requires 0 <= stored && slot == Recalculated(slot, stored)
    ensures !slot.status.Maintenance? ==>
      slot.status == if 50 <= stored then SlotStatus.Occupied else SlotStatus.Available
    ensures -50 <= 100 * slot.used - stored <= 50
  {
  }

  lemma WarehousesTell(st: State, w: Id)
    requires UpToDate(st) && w in st.houses
    ensures -50 <= 100 * st.houses[w].used - HouseVolume(st.goods, w) <= 50
  {
    assert HouseUpToDate(st, w);
  }

  // ---- rentals ----

  /** A rental agreement of the customer in the warehouse. */
  predicate IsRental(inv: Invoice, c: Id, w: Id) {
    inv.customer == c && inv.warehouse == w && !inv.status.Cancelled?
  }

  /** None was issued after it, nor at the same instant under a higher id. */
  predicate NewestRental(invoices: map<Id, Invoice>, i: Id, c: Id, w: Id) {
    && i in invoices && IsRental(invoices[i], c, w)
    && forall j :: j in invoices && IsRental(invoices[j], c, w) ==>
         invoices[j].issued < invoices[i].issued || (invoices[j].issued == invoices[i].issued && j <= i)
  }

  predicate NoRental(invoices: map<Id, Invoice>, c: Id, w: Id) {
    forall i :: i in invoices ==> !IsRental(invoices[i], c, w)
  }

  /** The rental runs 30.4375 days for each of its months. */
  predicate Runs(inv: Invoice, now: int) {
    now <= inv.issued + inv.months * 2_629_800_000
  }

  /** What is rented there is for cold goods. */
  ghost predicate ColdHere(st: State, c: Id, w: Id)
    requires w in st.houses
  {
    if NoRental(st.invoices, c, w) then st.houses[w].coldByDefault
    else exists i :: NewestRental(st.invoices, i, c, w) && st.invoices[i].zone == ColdStorage
  }

  lemma NewestIsNewest(invoices: map<Id, Invoice>, i: Id, c: Id, w: Id)
    ensures IsNewest(Rentals(invoices, c, w), i) <==> NewestRental(invoices, i, c, w)
  {
    var rentals := Rentals(invoices, c, w);
    if NewestRental(invoices, i, c, w) {
      forall j | j in rentals ensures NoNewer(rentals, j, i) { }
    } else if IsNewest(rentals, i) {
      forall j | j in invoices && IsRental(invoices[j], c, w)
        ensures invoices[j].issued < invoices[i].issued || (invoices[j].issued == invoices[i].issued && j <= i)
      {
        assert j in rentals && NoNewer(rentals, j, i);
      }
    }
  }

  lemma StorageIsTheNewest(st: State, c: Id, w: Id)
    requires w in st.houses
    ensures StorageType(Rentals(st.invoices, c, w), st.houses[w]).ColdStorage? <==> ColdHere(st, c, w)
  {
    var rentals := Rentals(st.invoices, c, w);
    forall i ensures IsNewest(rentals, i) <==> NewestRental(st.invoices, i, c, w) {
      NewestIsNewest(st.invoices, i, c, w);
    }
    if NoRental(st.invoices, c, w) {
      assert rentals == map[];
    } else {
      var some :| some in st.invoices && IsRental(st.invoices[some], c, w);
      assert some in rentals;
      NewestExists(rentals);
      var i :| IsNewest(rentals, i);
      assert forall j :: IsNewest(rentals, j) ==> NoNewer(rentals, i, j) && NoNewer(rentals, j, i);
    }
  }

  /** Registered goods, cold if labelled or cold food, are waiting for pickup or drafts as asked. */
  predicate RegisteredAs(g: Goods, dto: GoodsDto, c: Id) {
    && g.owner == c && g.warehouse == dto.warehouse && g.slot == None
    && g.weight == dto.weight && g.quantity == dto.quantity && g.category == dto.category
    && (g.status == if dto.pickupRequired then PendingPickup else Draft)
    && (g.requiresCold <==> dto.requiresCold || dto.category == ColdFood)
  }

  /** A known account and an active facility, rented for goods of this kind. */
  ghost predicate RentalServes(st: State, c: Id, dto: GoodsDto) {
    && c in st.users && dto.warehouse in st.houses && st.houses[dto.warehouse].active
    && (ColdHere(st, c, dto.warehouse) <==> dto.requiresCold || dto.category == ColdFood)
  }

  ghost predicate StillRunning(st: State, c: Id, w: Id, now: int) {
    Rented(st.invoices, c, w) != 0 ==>
      exists i :: i in st.invoices && IsRental(st.invoices[i], c, w) && Runs(st.invoices[i], now)
  }

  /** Without rented volume a customer has to have goods there already, and the allotment is 50 m3. */
  ghost predicate Entitled(st: State, c: Id, w: Id, byCustomer: bool) {
    Rented(st.invoices, c, w) != 0 || !byCustomer
    || exists g :: g in st.goods && st.goods[g].owner == c && st.goods[g].warehouse == w
  }

  ghost function AllottedSpace(st: State, c: Id, w: Id): int {
    if Rented(st.invoices, c, w) == 0 then 500_000 else Rented(st.invoices, c, w)
  }

  lemma ExpiryIsTheLatest(st: State, c: Id, w: Id, now: int)
    ensures Expired(Rentals(st.invoices, c, w), now) <==> !StillRunning(st, c, w, now)
  {
    var rentals := Rentals(st.invoices, c, w);
    if StillRunning(st, c, w, now) && Rented(st.invoices, c, w) != 0 {
      var i :| i in st.invoices && IsRental(st.invoices[i], c, w) && Runs(st.invoices[i], now);
      assert i in rentals && !(EndOf(rentals[i]) < now);
    } else if !StillRunning(st, c, w, now) {
      forall i | i in rentals ensures EndOf(rentals[i]) < now { assert !Runs(st.invoices[i], now); }
    }
  }

  /** A registration is accepted exactly if the rental serves the goods, still runs, entitles the customer,
      and the goods there and these are within its volume and 100 kg per m3, tolerances included. */
  lemma RegistrationIsAccepted(st: State, call: Call)
    requires call.request.DoRegister?
    ensures var dto := call.request.goods;
      var c := if call.actor.role.Admin? && dto.customer.Some? then dto.customer.value else call.actor.id;
      var w := dto.warehouse;
      Apply(st, call).Accepted?
      <==> && !call.actor.role.Driver? && call.request.id !in st.goods
           && RentalServes(st, c, dto) && StillRunning(st, c, w, call.now)
           && Entitled(st, c, w, call.actor.role.Customer?)
           && Measure(st.goods, OccupiedBy(c, w), VolumeOf) + dto.Volume() <= AllottedSpace(st, c, w) + 1
           && Measure(st.goods, OccupiedBy(c, w), WeightOf) + dto.weight <= AllottedSpace(st, c, w) + 1
  {
    var dto := call.request.goods;
    var c := if call.actor.role.Admin? && dto.customer.Some? then dto.customer.value else call.actor.id;
    var w := dto.warehouse;
    assert c == OnBehalf(call.actor, dto.customer);
    if w in st.houses { StorageIsTheNewest(st, c, w); }
    ExpiryIsTheLatest(st, c, w, call.now);
  }

  /** An accepted registration adds exactly one row, of the requested goods. */
  lemma RegistrationAddsItsGoods(st: State, call: Call)
    requires call.request.DoRegister? && Apply(st, call).Accepted?
    ensures var id, dto, after := call.request.id, call.request.goods, After(st, call).goods;
      var c := if call.actor.role.Admin? && dto.customer.Some? then dto.customer.value else call.actor.id;
      && id in after && RegisteredAs(after[id], dto, c) && after - {id} == st.goods
      && (0 < dto.length && 0 < dto.width && 0 < dto.height ==>
            -50_000_000 * dto.quantity
            <= 100_000_000 * after[id].volume - dto.length * dto.width * dto.height * dto.quantity
            <= 50_000_000 * dto.quantity)
  {
    var dto := call.request.goods;
    if 0 < dto.length && 0 < dto.width && 0 < dto.height {
      var l, w, h := dto.length, dto.width, dto.height;
      BatchVolume(Pricing.UnitVolume(l, w, h), l * w * h, dto.quantity);
    }
  }

  lemma BatchVolume(unit: nat, product: int, quantity: int)
    requires 0 < quantity && -50_000_000 <= 100_000_000 * unit - product <= 50_000_000
    ensures var total := Pricing.TotalVolume(unit, quantity);
      -50_000_000 * quantity <= 100_000_000 * total - product * quantity <= 50_000_000 * quantity
  {
    assert Pricing.TotalVolume(unit, quantity) == unit * quantity;
    assert 100_000_000 * (unit * quantity) - product * quantity == (100_000_000 * unit - product) * quantity;
    Scaled(100_000_000 * unit - product, quantity);
  }

  lemma Scaled(d: int, quantity: int)
    requires 0 < quantity && -50_000_000 <= d <= 50_000_000
    ensures -50_000_000 * quantity <= d * quantity <= 50_000_000 * quantity
  {
    assert 0 <= (d + 50_000_000) * quantity && 0 <= (50_000_000 - d) * quantity;
  }

  lemma MovesAddNothing(st: State, call: Call, g: Id)
    requires call.request.DoUpdateStatus? || call.request.DoTransferSlot? || call.request.DoReconcile?
    requires g in After(st, call).goods
    ensures g in st.goods
  {
  }

  lemma OrdersAddNothing(st: State, call: Call, g: Id)
    requires call.request.DoCreateOrder? || call.request.DoUpdateOrder? || call.request.DoReceive?
      || call.request.DoSubmitPod?
    requires g in After(st, call).goods
    ensures g in st.goods
  {
  }

  lemma TenancyAddsNothing(st: State, call: Call, g: Id)
    requires call.request.DoChangeWarehouse? || call.request.DoDeleteUser? || call.request.DoRentSpace?
      || call.request.DoPay? || call.request.DoVerify?
    requires g in After(st, call).goods
    ensures g in st.goods
  {
  }

  /** No other request adds goods. */
  lemma OnlyRegistrationAdds(st: State, call: Call, g: Id)
    requires g in After(st, call).goods && g !in st.goods
    ensures call.request.DoRegister? && g == call.request.id
  {
    var r := call.request;
    if r.DoUpdateStatus? || r.DoTransferSlot? || r.DoReconcile? {
      MovesAddNothing(st, call, g);
    } else if r.DoCreateOrder? || r.DoUpdateOrder? || r.DoReceive? || r.DoSubmitPod? {
      OrdersAddNothing(st, call, g);
    } else if !r.DoRegister? {
      TenancyAddsNothing(st, call, g);
    }
  }
}
