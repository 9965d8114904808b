/** Caches follow the goods, racks stay within their limits, and the two views of a warehouse agree. */
module RackTheorems {
  import opened Domain
  import opened Quantities
  import opened Sums
  import opened Capacity
  import opened Inventory
  import opened Dispatch
  import opened Tenancy
  import opened System

  // ---- incremental maintenance is full recomputation ----

  /** One moved row: every slot it was or is in, and its warehouse, are recalculated. */
  lemma MovedKeepsCaches(st: State, id: Id, row: Goods, touched: set<Id>)
    requires UpToDate(st) && id in st.goods && row.warehouse == st.goods[id].warehouse
    requires row.status == Stored ==> SlotSet(row.slot) <= touched
    requires st.goods[id].status == Stored ==> SlotSet(st.goods[id].slot) <= touched
    ensures UpToDate(Moved(st, id, row, touched))
  {
    var after := Moved(st, id, row, touched);
    forall s | s in after.slots ensures SlotUpToDate(after, s) {
      MovedKeepsSlot(st, id, row, touched, s);
    }
    forall w | w in after.houses ensures HouseUpToDate(after, w) {
      MovedKeepsHouse(st, id, row, touched, w);
    }
  }

  lemma MovedKeepsHouse(st: State, id: Id, row: Goods, touched: set<Id>, w: Id)
    requires w in st.houses && HouseUpToDate(st, w) && id in st.goods && row.warehouse == st.goods[id].warehouse
    ensures HouseUpToDate(Moved(st, id, row, touched), w)
  {
    if w != row.warehouse {
      ReplaceRow(st.goods, id, row, StoredInHouse(w), VolumeOf);
    }
  }

  lemma MovedKeepsSlot(st: State, id: Id, row: Goods, touched: set<Id>, s: Id)
    requires s in st.slots && SlotUpToDate(st, s) && id in st.goods
    requires row.status == Stored ==> SlotSet(row.slot) <= touched
    requires st.goods[id].status == Stored ==> SlotSet(st.goods[id].slot) <= touched
    ensures SlotUpToDate(Moved(st, id, row, touched), s)
  {
    if s !in touched {
      ReplaceRow(st.goods, id, row, StoredInSlot(s), VolumeOf);
    }
  }

  /** The rows that count for the caches are the same rows. */
  ghost predicate SameStored(goods: map<Id, Goods>, after: map<Id, Goods>) {
    && (forall g :: g in goods && goods[g].status == Stored ==> g in after && after[g] == goods[g])
    && (forall g :: g in after && after[g].status == Stored ==> g in goods && goods[g] == after[g])
  }

  lemma SameStoredKeepsCaches(st: State, after: State)
    requires SameStored(st.goods, after.goods) && after.slots == st.slots && after.houses == st.houses
    requires UpToDate(st)
    ensures UpToDate(after)
  {
    forall s | s in after.slots ensures SlotUpToDate(after, s) {
      assert SlotUpToDate(st, s);
      MeasureSame(st.goods, after.goods, StoredInSlot(s), VolumeOf);
    }
    forall w | w in after.houses ensures HouseUpToDate(after, w) {
      assert HouseUpToDate(st, w);
      MeasureSame(st.goods, after.goods, StoredInHouse(w), VolumeOf);
    }
  }

  lemma DeleteKeepsCaches(st: State, c: Id)
    requires UpToDate(st)
    ensures UpToDate(Deleted(st, c))
  {
    var after := Deleted(st, c);
    var gone := OwnedBy(st.goods, c);
    forall s | s in after.slots ensures SlotUpToDate(after, s) {
      assert SlotUpToDate(st, s);
      if forall g :: g in gone ==> st.goods[g].slot != Some(s) {
        MeasureSame(st.goods, after.goods, StoredInSlot(s), VolumeOf);
      }
    }
    forall w | w in after.houses ensures HouseUpToDate(after, w) {
      assert HouseUpToDate(st, w);
      if forall g :: g in gone ==> st.goods[g].warehouse != w {
        MeasureSame(st.goods, after.goods, StoredInHouse(w), VolumeOf);
      }
    }
  }

  /** Volume of an order's own goods among those a filter selects. */
  ghost function Leaving(goods: map<Id, Goods>, items: map<Id, nat>, where: Goods -> bool): int {
    Measure(map g | g in goods && g in items :: goods[g], where, VolumeOf)
  }

  /** Taking `less` from `total` leaves the two-decimal rounding alone. */
  predicate SameCentimal(total: int, less: int) {
    less <= (total + 50) % 100
  }

  lemma RoundingAfterLess(total: int, less: int)
    requires 0 <= less <= total
    ensures ToFixed(total - less, 100) == ToFixed(total, 100) <==> SameCentimal(total, less)
  {
  }

  lemma InspectedVolume(goods: map<Id, Goods>, items: map<Id, nat>, where: Goods -> bool)
    requires forall g: Goods :: where(g) ==> g.status == Stored
    ensures Measure(Inspected(goods, items), where, VolumeOf)
        == Measure(goods, where, VolumeOf) - Leaving(goods, items, where)
    ensures 0 <= Leaving(goods, items, where) <= Measure(goods, where, VolumeOf)
  {
    var own := map g | g in goods && g in items :: goods[g];
    Add(Rows(own, where, VolumeOf), Rows(Inspected(goods, items), where, VolumeOf), Rows(goods, where, VolumeOf));
    MeasureNonNegative(own, where, VolumeOf);
    MeasureNonNegative(Inspected(goods, items), where, VolumeOf);
  }

  /** Receiving rewrites goods without recalculating: harmless exactly when what leaves each slot
      and warehouse does not show in its rounded figure. */
  ghost predicate ReceivingIsInvisible(st: State, items: map<Id, nat>) {
    && (forall s :: s in st.slots ==> SameCentimal(SlotVolume(st.goods, s), Leaving(st.goods, items, StoredInSlot(s))))
    && (forall w :: w in st.houses ==>
      SameCentimal(HouseVolume(st.goods, w), Leaving(st.goods, items, StoredInHouse(w))))
  }

  ghost predicate CacheGuard(st: State, c: Call) {
    c.request.DoReceive? && Apply(st, c).Accepted? ==> ReceivingIsInvisible(st, st.orders[c.request.id].items)
  }

  lemma ReceiveAndCaches(st: State, after: State, items: map<Id, nat>)
    requires UpToDate(st) && after.goods == Inspected(st.goods, items) && after.slots == st.slots
    requires after.houses == st.houses
    ensures UpToDate(after) <==> ReceivingIsInvisible(st, items)
  {
    forall s | s in st.slots
      ensures SlotUpToDate(after, s) <==>
          SameCentimal(SlotVolume(st.goods, s), Leaving(st.goods, items, StoredInSlot(s)))
    {
      ReceiveAndSlot(st, after, items, s);
    }
    forall w | w in st.houses
      ensures HouseUpToDate(after, w) <==>
          SameCentimal(HouseVolume(st.goods, w), Leaving(st.goods, items, StoredInHouse(w)))
    {
      ReceiveAndHouse(st, after, items, w);
    }
  }

  lemma ReceiveAndSlot(st: State, after: State, items: map<Id, nat>, s: Id)
    requires s in st.slots && SlotUpToDate(st, s) && after.goods == Inspected(st.goods, items)
    requires after.slots == st.slots
    ensures SlotUpToDate(after, s) <==> SameCentimal(SlotVolume(st.goods, s), Leaving(st.goods, items, StoredInSlot(s)))
  {
    InspectedVolume(st.goods, items, StoredInSlot(s));
    RoundingAfterLess(SlotVolume(st.goods, s), Leaving(st.goods, items, StoredInSlot(s)));
  }

  lemma ReceiveAndHouse(st: State, after: State, items: map<Id, nat>, w: Id)
    requires w in st.houses && HouseUpToDate(st, w) && after.goods == Inspected(st.goods, items)
    requires after.houses == st.houses
    ensures HouseUpToDate(after, w) <==>
        SameCentimal(HouseVolume(st.goods, w), Leaving(st.goods, items, StoredInHouse(w)))
  {
    InspectedVolume(st.goods, items, StoredInHouse(w));
    RoundingAfterLess(HouseVolume(st.goods, w), Leaving(st.goods, items, StoredInHouse(w)));
  }

  lemma PutAwayKeepsCaches(st: State, id: Id, s: Id)
    requires UpToDate(st) && id in st.goods
    ensures UpToDate(PutAway(st, id, s))
  {
    var g := st.goods[id];
    var row, touched := g.(status := Stored, slot := Some(s)), {s} + SlotSet(g.slot);
    MovedKeepsCaches(st, id, row, touched);
    SameStoredKeepsCaches(Moved(st, id, row, touched), PutAway(st, id, s));
  }

  lemma LeaveKeepsCaches(st: State, id: Id, status: GoodsStatus)
    requires UpToDate(st) && id in st.goods && !status.Stored?
    ensures UpToDate(Leave(st, id, status))
  {
    var g := st.goods[id];
    MovedKeepsCaches(st, id, g.(status := status, slot := if Occupying(status) then g.slot else None), SlotSet(g.slot));
  }

  /** Requests that touch neither slots nor warehouses nor any stored row. */
  predicate Quiet(r: Request) {
    r.DoRegister? || r.DoCreateOrder? || r.DoUpdateOrder? || r.DoSubmitPod?
    || r.DoRentSpace? || r.DoChangeWarehouse? || r.DoPay? || r.DoVerify?
  }

  ghost predicate LeavesCaches(st: State, after: State) {
    SameStored(st.goods, after.goods) && after.slots == st.slots && after.houses == st.houses
  }

  lemma CreatedIsQuiet(st: State, id: Id, req: OrderRequest, c: Id)
    ensures LeavesCaches(st, Created(st, id, req, c))
  {
  }

  lemma OrderUpdatedIsQuiet(st: State, id: Id, t: OrderStatus, v: Field, d: Field)
    requires id in st.orders
    ensures LeavesCaches(st, OrderUpdated(st, id, t, v, d))
  {
  }

  lemma QuietOrders(st: State, c: Call)
    requires c.request.DoCreateOrder? || c.request.DoUpdateOrder? || c.request.DoSubmitPod?
    ensures LeavesCaches(st, After(st, c))
  {
    match c.request
    case DoCreateOrder(id, req) =>
      if MayCreate(st, id, req, c.actor, c.now) { CreatedIsQuiet(st, id, req, OnBehalf(c.actor, req.customer)); }
    case DoUpdateOrder(id, t, v, d) =>
      if MayUpdateOrder(st, id, t, v, d, c.actor, c.now) { OrderUpdatedIsQuiet(st, id, t, v, d); }
    case DoSubmitPod(id) =>
  }

  lemma QuietRequests(st: State, c: Call)
    requires Quiet(c.request)
    ensures LeavesCaches(st, After(st, c))
  {
    if c.request.DoCreateOrder? || c.request.DoUpdateOrder? || c.request.DoSubmitPod? {
      QuietOrders(st, c);
    } else {
      TenancyIsQuiet(st, c);
    }
  }

  lemma TenancyIsQuiet(st: State, c: Call)
    requires c.request.DoRegister? || c.request.DoChangeWarehouse? || BillingRequest(c.request)
    ensures LeavesCaches(st, After(st, c))
  {
    if BillingRequest(c.request) {
      BillingIsQuiet(st, c);
    } else if c.request.DoChangeWarehouse? {
      ChangeIsQuiet(st, c);
    }
  }

  predicate BillingRequest(r: Request) {
    r.DoRentSpace? || r.DoPay? || r.DoVerify?
  }

  lemma BillingIsQuiet(st: State, c: Call)
    requires BillingRequest(c.request)
    ensures LeavesCaches(st, After(st, c))
  {
  }

  lemma ChangeIsQuiet(st: State, c: Call)
    requires c.request.DoChangeWarehouse?
    ensures LeavesCaches(st, After(st, c))
  {
  }

  /** Every request keeps the caches up to date, receiving exactly under its guard. */
  lemma StepAndCaches(st: State, c: Call)
    requires UpToDate(st)
    ensures UpToDate(After(st, c)) <==> CacheGuard(st, c)
  {
    if Quiet(c.request) {
      QuietRequests(st, c);
      SameStoredKeepsCaches(st, After(st, c));
    } else if Apply(st, c).Accepted? {
      match c.request
      case DoUpdateStatus(id, status, slot) =>
        if status.Stored? {
          PutAwayKeepsCaches(st, id, PutTarget(st, id, slot).value);
        } else {
          LeaveKeepsCaches(st, id, status);
        }
      case DoTransferSlot(id, target) =>
        MovedKeepsCaches(st, id, st.goods[id].(slot := Some(target)), {target} + SlotSet(st.goods[id].slot));
      case DoReconcile => ReconcileEstablishes(st);
      case DoReceive(id, _) => ReceiveAndCaches(st, After(st, c), st.orders[id].items);
      case DoDeleteUser(id) => DeleteKeepsCaches(st, id);
    }
  }

  /** Incremental maintenance refines full recomputation: after any run whose receivings are
      invisible, running the full reconciliation changes nothing. */
  lemma IncrementalIsFullRecompute(st: State, calls: seq<Call>)
    requires UpToDate(st) && Guarded(st, calls, CacheGuard)
    ensures UpToDate(Run(st, calls)) && Reconciled(Run(st, calls)) == Run(st, calls)
  {
    forall s, c | UpToDate(s) && CacheGuard(s, c) ensures UpToDate(After(s, c)) {
      StepAndCaches(s, c);
    }
    RunKeeps(UpToDate, CacheGuard, st, calls);
    ReconcileIsTheFixpoint(Run(st, calls));
  }

  /** Receiving an order none of whose goods is stored is always invisible. */
  lemma NothingStoredIsInvisible(st: State, items: map<Id, nat>)
    requires forall g :: g in items && g in st.goods ==> st.goods[g].status != Stored
    ensures ReceivingIsInvisible(st, items)
  {
    var own := map g | g in st.goods && g in items :: st.goods[g];
    forall s | s in st.slots
      ensures SameCentimal(SlotVolume(st.goods, s), Leaving(st.goods, items, StoredInSlot(s)))
    {
      assert Rows(own, StoredInSlot(s), VolumeOf) == map[];
    }
    forall w | w in st.houses
      ensures SameCentimal(HouseVolume(st.goods, w), Leaving(st.goods, items, StoredInHouse(w)))
    {
      assert Rows(own, StoredInHouse(w), VolumeOf) == map[];
    }
  }

  // ---- racks stay within their limits ----

  /** A stored good sits in a slot of its own warehouse, a cold one in a cold slot. */
  ghost predicate Shelved(st: State, g: Id)
    requires g in st.goods
  {
    st.goods[g].status == Stored ==>
      && st.goods[g].slot.Some? && st.goods[g].slot.value in st.slots
      && var slot := st.slots[st.goods[g].slot.value];
         slot.warehouse == st.goods[g].warehouse && (st.goods[g].requiresCold ==> slot.zone == ColdStorage)
  }

  /** Half a rounding unit over: 0.005 m3 and 0.05 kg. */
  ghost predicate WithinRack(goods: map<Id, Goods>, capacity: nat, s: Id) {
    && SlotVolume(goods, s) <= 100 * capacity + 50
    && SlotWeight(goods, s) <= 50 * capacity + 5
  }

  ghost predicate Racked(st: State) {
    && (forall g :: g in st.goods ==> Shelved(st, g))
    && (forall s :: s in st.slots ==> WithinRack(st.goods, st.slots[s].capacity, s))
  }

  /** Slots keep their place, zone and capacity. */
  ghost predicate SameRacks(slots: map<Id, Slot>, after: map<Id, Slot>) {
    && after.Keys == slots.Keys
    && forall s :: s in slots ==> after[s].(used := 0, status := Occupied) == slots[s].(used := 0, status := Occupied)
  }

  /** A check against a rounded remainder lets the sum exceed the limit by half a unit, whatever was
      already there: only goods without volume, or without weight, may go where it is exceeded. */
  lemma CheckedPutAway(st: State, id: Id, row: Goods, s: Id)
    requires id in st.goods && s in st.slots && HasRoom(st.goods, id, s, st.slots[s])
    requires row.volume == st.goods[id].volume && row.weight == st.goods[id].weight
    ensures var others := st.goods - {id}; var after := st.goods[id := row]; var capacity := st.slots[s].capacity;
      && (0 < row.volume || SlotVolume(others, s) <= 100 * capacity + 50 ==>
            SlotVolume(after, s) <= 100 * capacity + 50)
      && (0 < row.weight || SlotWeight(others, s) <= 50 * capacity + 5 ==>
            SlotWeight(after, s) <= 50 * capacity + 5)
  {
    ReplaceRow(st.goods, id, row, StoredInSlot(s), VolumeOf);
    ReplaceRow(st.goods, id, row, StoredInSlot(s), WeightOf);
  }

  lemma FewerStored(goods: map<Id, Goods>, after: map<Id, Goods>, capacity: nat, s: Id)
    requires WithinRack(goods, capacity, s)
    requires forall g :: g in after && StoredInSlot(s)(after[g]) ==>
      g in goods && StoredInSlot(s)(goods[g]) && after[g].volume == goods[g].volume &&
        after[g].weight == goods[g].weight
    ensures WithinRack(after, capacity, s)
  {
    MeasureMonotone(goods, after, StoredInSlot(s), VolumeOf);
    MeasureMonotone(goods, after, StoredInSlot(s), WeightOf);
  }

  /** One row moved into a slot that takes it, or out of its slot. */
  lemma MovedKeepsRacks(st: State, id: Id, row: Goods, touched: set<Id>)
    requires Racked(st) && id in st.goods
    requires row.volume == st.goods[id].volume && row.weight == st.goods[id].weight
    requires row.warehouse == st.goods[id].warehouse && row.requiresCold == st.goods[id].requiresCold
    requires row.status == Stored ==> row.slot.Some? && Takes(st, id, row.slot.value)
    ensures Racked(Moved(st, id, row, touched))
  {
    var after := Moved(st, id, row, touched);
    assert after.goods == st.goods[id := row];
    assert SameRacks(st.slots, after.slots);
    forall g | g in after.goods ensures Shelved(after, g) {
      if g != id { assert Shelved(st, g); }
    }
    forall s | s in after.slots ensures WithinRack(after.goods, after.slots[s].capacity, s) {
      MovedWithinRack(st, id, row, s);
    }
  }

  lemma MovedWithinRack(st: State, id: Id, row: Goods, s: Id)
    requires id in st.goods && s in st.slots && WithinRack(st.goods, st.slots[s].capacity, s)
    requires row.volume == st.goods[id].volume && row.weight == st.goods[id].weight
    requires row.status == Stored ==> row.slot.Some? && Takes(st, id, row.slot.value)
    ensures WithinRack(st.goods[id := row], st.slots[s].capacity, s)
  {
    if row.status == Stored && row.slot == Some(s) {
      FewerStored(st.goods, st.goods - {id}, st.slots[s].capacity, s);
      CheckedPutAway(st, id, row, s);
    } else {
      FewerStored(st.goods, st.goods[id := row], st.slots[s].capacity, s);
    }
  }

  lemma FewerKeepsRacks(st: State, after: State)
    requires Racked(st) && SameRacks(st.slots, after.slots)
    requires forall g :: g in after.goods && after.goods[g].status == Stored ==>
        g in st.goods && after.goods[g] == st.goods[g]
    ensures Racked(after)
  {
    forall g | g in after.goods ensures Shelved(after, g) {
      if after.goods[g].status == Stored { assert Shelved(st, g); }
    }
    forall s | s in after.slots ensures WithinRack(after.goods, after.slots[s].capacity, s) {
      assert WithinRack(st.goods, st.slots[s].capacity, s);
      FewerStored(st.goods, after.goods, st.slots[s].capacity, s);
    }
  }

  lemma PutAwayKeepsRacks(st: State, id: Id, s: Id)
    requires Racked(st) && id in st.goods && Takes(st, id, s)
    ensures Racked(PutAway(st, id, s))
  {
    var g := st.goods[id];
    var row, touched := g.(status := Stored, slot := Some(s)), {s} + SlotSet(g.slot);
    MovedKeepsRacks(st, id, row, touched);
    FewerKeepsRacks(Moved(st, id, row, touched), PutAway(st, id, s));
  }

  lemma LeaveKeepsRacks(st: State, id: Id, status: GoodsStatus)
    requires Racked(st) && id in st.goods && !status.Stored?
    ensures Racked(Leave(st, id, status))
  {
    var g := st.goods[id];
    MovedKeepsRacks(st, id, g.(status := status, slot := if Occupying(status) then g.slot else None), SlotSet(g.slot));
  }

  lemma StatusKeepsRacks(st: State, c: Call)
    requires Racked(st) && c.request.DoUpdateStatus?
    ensures Racked(After(st, c))
  {
    var r := c.request;
    if MayUpdateStatus(st, r.id, r.status, r.slot, c.actor) {
      if r.status.Stored? {
        PutAwayKeepsRacks(st, r.id, PutTarget(st, r.id, r.slot).value);
      } else {
        LeaveKeepsRacks(st, r.id, r.status);
      }
    }
  }

  lemma TransferKeepsRacks(st: State, c: Call)
    requires Racked(st) && c.request.DoTransferSlot?
    ensures Racked(After(st, c))
  {
    var id, target := c.request.id, c.request.target;
    if MayTransfer(st, id, target, c.actor) {
      MovedKeepsRacks(st, id, st.goods[id].(slot := Some(target)), {target} + SlotSet(st.goods[id].slot));
    }
  }

  lemma StepKeepsRacks(st: State, c: Call)
    requires Racked(st)
    ensures Racked(After(st, c))
  {
    if Quiet(c.request) {
      QuietRequests(st, c);
      FewerKeepsRacks(st, After(st, c));
    } else if c.request.DoUpdateStatus? {
      StatusKeepsRacks(st, c);
    } else if c.request.DoTransferSlot? {
      TransferKeepsRacks(st, c);
    } else if Apply(st, c).Accepted? {
      match c.request
      case DoReconcile => FewerKeepsRacks(st, Reconciled(st));
      case DoReceive(id, _) => ReceivedKeepsRacks(st, id);
      case DoDeleteUser(id) => DeletedKeepsRacks(st, id);
    }
  }

  lemma ReceivedKeepsRacks(st: State, id: Id)
    requires Racked(st) && id in st.orders
    ensures Racked(Received(st, id))
  {
    FewerKeepsRacks(st, Received(st, id));
  }

  lemma DeletedKeepsRacks(st: State, c: Id)
    requires Racked(st)
    ensures Racked(Deleted(st, c))
  {
    FewerKeepsRacks(st, Deleted(st, c));
  }

  /** Rounding does not drift: whatever runs, no slot exceeds its limits by more than half a
      rounding unit, and every stored good is on a proper shelf. */
  lemma RacksStayWithinLimits(st: State, calls: seq<Call>)
    requires Racked(st)
    ensures Racked(Run(st, calls))
  {
    forall s, c | Racked(s) && Always(s, c) ensures Racked(After(s, c)) {
      StepKeepsRacks(s, c);
    }
    Unguarded(st, calls);
    RunKeeps(Racked, Always, st, calls);
  }

  // ---- two views of one warehouse ----

  function StoredInAny(slots: set<Id>): Goods -> bool {
    (g: Goods) => g.status == Stored && g.slot.Some? && g.slot.value in slots
  }

  ghost function VolumePerSlot(goods: map<Id, Goods>, slots: set<Id>): map<Id, int> {
    map s | s in slots :: SlotVolume(goods, s)
  }

  lemma SplitOff(goods: map<Id, Goods>, slots: set<Id>, s: Id)
    requires s in slots
    ensures Measure(goods, StoredInAny(slots), VolumeOf)
         == SlotVolume(goods, s) + Measure(goods, StoredInAny(slots - {s}), VolumeOf)
  {
    MeasureSplit(goods, StoredInSlot(s), StoredInAny(slots - {s}), StoredInAny(slots), VolumeOf);
  }

  lemma PerSlotStep(goods: map<Id, Goods>, slots: set<Id>, s: Id)
    requires s in slots
    ensures Sum(VolumePerSlot(goods, slots)) == SlotVolume(goods, s) + Sum(VolumePerSlot(goods, slots - {s}))
  {
    var all := VolumePerSlot(goods, slots);
    Pick(all, s);
    assert all - {s} == VolumePerSlot(goods, slots - {s});
  }

  lemma NoSlots(goods: map<Id, Goods>)
    ensures Measure(goods, StoredInAny({}), VolumeOf) == 0 == Sum(VolumePerSlot(goods, {}))
  {
    assert Rows(goods, StoredInAny({}), VolumeOf) == map[];
    assert VolumePerSlot(goods, {}) == map[];
  }

  lemma {:induction false} SlotsPartition(goods: map<Id, Goods>, slots: set<Id>)
    ensures Measure(goods, StoredInAny(slots), VolumeOf) == Sum(VolumePerSlot(goods, slots))
    decreases slots
  {
    if slots == {} {
      NoSlots(goods);
    } else {
      var s :| s in slots;
      SlotsPartition(goods, slots - {s});
      SplitOff(goods, slots, s);
      PerSlotStep(goods, slots, s);
    }
  }

  function SlotsOf(slots: map<Id, Slot>, w: Id): set<Id> {
    set s | s in slots && slots[s].warehouse == w
  }

  /** `calculateSlotMetrics`: the sum over stored goods when positive, else the cached figure. */
  ghost function ShownSlotUse(st: State, s: Id): int
    requires s in st.slots
  {
    var sum := ToFixed(SlotVolume(st.goods, s), 100);
    if 0 < sum then sum else Max(0, st.slots[s].used)
  }

  ghost function ShownPerSlot(st: State, w: Id): map<Id, int> {
    map s | s in SlotsOf(st.slots, w) :: ShownSlotUse(st, s)
  }

  lemma {:induction false} RoundedSumIsNear(exact: map<Id, int>, rounded: map<Id, int>)
    requires exact.Keys == rounded.Keys
    requires forall s :: s in exact ==> -50 <= 100 * rounded[s] - exact[s] <= 50
    ensures -50 * |exact| <= 100 * Sum(rounded) - Sum(exact) <= 50 * |exact|
    decreases exact.Keys
  {
    if s :| s in exact {
      Pick(exact, s);
      Pick(rounded, s);
      assert |exact - {s}| == |exact| - 1 by { assert (exact - {s}).Keys == exact.Keys - {s}; }
      RoundedSumIsNear(exact - {s}, rounded - {s});
    } else {
      assert exact == map[] && rounded.Keys == {};
    }
  }

  lemma StoredWhereShelved(st: State, w: Id)
    requires Racked(st)
    ensures Rows(st.goods, StoredInAny(SlotsOf(st.slots, w)), VolumeOf) == Rows(st.goods, StoredInHouse(w), VolumeOf)
  {
    var slots := SlotsOf(st.slots, w);
    forall g | g in st.goods ensures StoredInAny(slots)(st.goods[g]) == StoredInHouse(w)(st.goods[g]) {
      assert Shelved(st, g);
    }
  }

  lemma HouseIsItsSlots(st: State, w: Id)
    requires Racked(st)
    ensures HouseVolume(st.goods, w) == Sum(VolumePerSlot(st.goods, SlotsOf(st.slots, w)))
  {
    StoredWhereShelved(st, w);
    SlotsPartition(st.goods, SlotsOf(st.slots, w));
  }

  lemma ShownIsCached(st: State, s: Id)
    requires UpToDate(st) && s in st.slots
    ensures ShownSlotUse(st, s) == st.slots[s].used
    ensures -50 <= 100 * st.slots[s].used - SlotVolume(st.goods, s) <= 50
  {
    assert SlotUpToDate(st, s);
    MeasureNonNegative(st.goods, StoredInSlot(s), VolumeOf);
  }

  /** The slots' figures add up to the warehouse's within 0.005 m3 for each slot and one more. */
  lemma TwoViewsAgree(st: State, w: Id)
    requires Racked(st) && UpToDate(st) && w in st.houses
    ensures var n := |SlotsOf(st.slots, w)|;
      -50 * (n + 1) <= 100 * Sum(ShownPerSlot(st, w)) - 100 * st.houses[w].used <= 50 * (n + 1)
    ensures ShownPerSlot(st, w) == map s | s in SlotsOf(st.slots, w) :: st.slots[s].used
  {
    ShownIsNearExact(st, w);
    HouseIsItsSlots(st, w);
    assert HouseUpToDate(st, w);
  }

  lemma ShownIsNearExact(st: State, w: Id)
    requires UpToDate(st)
    ensures var slots := SlotsOf(st.slots, w);
      -50 * |slots| <= 100 * Sum(ShownPerSlot(st, w)) - Sum(VolumePerSlot(st.goods, slots)) <= 50 * |slots|
    ensures ShownPerSlot(st, w) == map s | s in SlotsOf(st.slots, w) :: st.slots[s].used
  {
    var slots := SlotsOf(st.slots, w);
    var shown, exact := ShownPerSlot(st, w), VolumePerSlot(st.goods, slots);
    EachShownIsNear(st, w);
    RoundedSumIsNear(exact, shown);
    assert |exact| == |slots| by { assert exact.Keys == slots; }
  }

  lemma EachShownIsNear(st: State, w: Id)
    requires UpToDate(st)
    ensures var shown, exact := ShownPerSlot(st, w), VolumePerSlot(st.goods, SlotsOf(st.slots, w));
      forall s :: s in exact ==> shown[s] == st.slots[s].used && -50 <= 100 * shown[s] - exact[s] <= 50
  {
    forall s | s in SlotsOf(st.slots, w)
      ensures ShownPerSlot(st, w)[s] == st.slots[s].used
      ensures -50 <= 100 * st.slots[s].used - SlotVolume(st.goods, s) <= 50
    {
      ShownIsCached(st, s);
    }
  }
}
