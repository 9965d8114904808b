/** Concrete requests that break each property once its guard is dropped, each from an orderly state. */
module Counterexamples {
  import opened Domain
  import opened Sums
  import opened Capacity
  import opened Inventory
  import opened Dispatch
  import opened Tenancy
  import opened System
  import opened RackTheorems
  import opened OrderTheorems
  import opened ReservationTheorems
  import opened FleetTheorems
  import opened InboundTheorems
  import opened BillingTheorems
  import opened RentalTheorems
  import opened Reachable
  import opened ServiceTheorems
  import opened TransitTheorems
  import Shares

  const BOSS := Actor(9, Admin)

  /** One cubic metre of customer 7 in warehouse 3. */
  function Crate(status: GoodsStatus, slot: Option<Id>): Goods {
    Goods(7, 3, slot, status, 10_000, 100, 1, Textile, false)
  }

  /** Order of one crate. */
  function Errand(kind: OrderType, good: Id, status: OrderStatus, driver: Option<Id>, vehicle: Option<Id>): Order {
    Order(kind, 7, driver, vehicle, 10_000, 100, false, status, map[good := 1])
  }

  const STAFF := map[
    5 := User(Driver, UserStatus.Active, None), 7 := User(Customer, UserStatus.Active, None),
    9 := User(Admin, UserStatus.Active, None)]

  /** Warehouse 3 with its slot 2, two crates, and caches at `used`. */
  function Depot(
    first: Goods, second: Goods, used: int, orders: map<Id, Order>, vehicles: map<Id, Vehicle>,
    invoices: map<Id, Invoice>)
    : State
  {
    State(map[1 := first, 6 := second], map[2 := Slot(3, Standard, 500, used, Occupied)],
          map[3 := Warehouse(true, false, used)], orders, vehicles, STAFF, invoices)
  }

  predicate IsCrate(g: Goods) {
    g == Crate(g.status, g.slot) && (g.status.Stored? ==> g.slot == Some(2))
  }

  function UsedBy(g: Goods): int {
    if g.status.Stored? then 100 else 0
  }

  /** Every order carries one of the crates, no two the same one, none of them received. */
  predicate Errands(orders: map<Id, Order>) {
    && (forall o :: o in orders ==>
          var e := orders[o];
          (e == Errand(e.kind, 1, e.status, e.driver, e.vehicle) ||
            e == Errand(e.kind, 6, e.status, e.driver, e.vehicle))
          && !e.status.Delivered?)
    && (forall o, p :: o in orders && p in orders && orders[o].items == orders[p].items ==> o == p)
  }

  lemma OneRow(id: Id, g: Goods, where: Goods -> bool, measure: Goods -> int)
    ensures Measure(map[id := g], where, measure) == if where(g) then measure(g) else 0
  {
    ReplaceRow(map[], id, g, where, measure);
    assert map[][id := g] == map[id := g];
    assert Rows(map[] - {id}, where, measure) == map[];
  }

  lemma TwoRows(first: Goods, second: Goods, where: Goods -> bool, measure: Goods -> int)
    ensures Measure(map[1 := first, 6 := second], where, measure)
         == (if where(first) then measure(first) else 0) + (if where(second) then measure(second) else 0)
  {
    ReplaceRow(map[1 := first], 6, second, where, measure);
    assert map[1 := first][6 := second] == map[1 := first, 6 := second];
    assert map[1 := first] - {6} == map[1 := first];
    OneRow(1, first, where, measure);
  }

  // ---- the depot is orderly ----

  lemma DepotIsUpToDate(st: State, a: Goods, b: Goods, used: int)
    requires st.goods == map[1 := a, 6 := b] && IsCrate(a) && IsCrate(b) && used == UsedBy(a) + UsedBy(b) && 0 < used
    requires st.slots == map[2 := Slot(3, Standard, 500, used, Occupied)]
    requires st.houses == map[3 := Warehouse(true, false, used)]
    ensures UpToDate(st)
  {
    TwoRows(a, b, StoredInSlot(2), VolumeOf);
    TwoRows(a, b, StoredInHouse(3), VolumeOf);
    assert SlotVolume(st.goods, 2) == HouseVolume(st.goods, 3) == 100 * used;
    assert SlotUpToDate(st, 2) && HouseUpToDate(st, 3);
  }

  lemma DepotIsRacked(st: State, a: Goods, b: Goods, used: int)
    requires st.goods == map[1 := a, 6 := b] && IsCrate(a) && IsCrate(b)
    requires st.slots == map[2 := Slot(3, Standard, 500, used, Occupied)]
    ensures Racked(st)
  {
    TwoRows(a, b, StoredInSlot(2), VolumeOf);
    TwoRows(a, b, StoredInSlot(2), WeightOf);
    assert Shelved(st, 1) && Shelved(st, 6);
    assert WithinRack(st.goods, 500, 2);
  }

  lemma ErrandIsSound(goods: map<Id, Goods>, o: Order, g: Id)
    requires o == Errand(o.kind, g, o.status, o.driver, o.vehicle) && g in goods && IsCrate(goods[g])
    ensures OrderSound(goods, o)
  {
    Shares.Pick(VolumeShares(goods, o.items), g);
    Shares.Pick(WeightShares(goods, o.items), g);
    assert VolumeShares(goods, o.items) - {g} == map[] && WeightShares(goods, o.items) - {g} == map[];
    assert VolumeShare(goods[g], 1) == 10_000.0 && WeightShare(goods[g], 1) == 100.0;
  }

  lemma OneClaimEach(orders: map<Id, Order>, g: Id, kind: OrderType)
    requires Errands(orders)
    ensures ReservedQuantity(orders, g, kind) <= 1
  {
    var claims := Claims(orders, g, kind);
    if o :| o in claims {
      Pick(claims, o);
      forall p | p in claims ensures p == o {
        assert orders[p].items == orders[o].items;
      }
      assert claims - {o} == map[];
    } else {
      assert claims == map[];
    }
  }

  lemma DepotIsAccounted(st: State, a: Goods, b: Goods)
    requires st.goods == map[1 := a, 6 := b] && IsCrate(a) && IsCrate(b) && Errands(st.orders)
    ensures Accounted(st)
  {
    forall o | o in st.orders ensures OrderSound(st.goods, st.orders[o]) {
      var e := st.orders[o];
      ErrandIsSound(st.goods, e, if e == Errand(e.kind, 1, e.status, e.driver, e.vehicle) then 1 else 6);
    }
    forall g, kind | g in st.goods ensures ReservedQuantity(st.orders, g, kind) <= st.goods[g].quantity {
      OneClaimEach(st.orders, g, kind);
    }
  }

  /** A depot whose orders share no vehicle or driver and fit theirs, and whose invoices are in order. */
  lemma DepotIsOrderly(st: State, a: Goods, b: Goods, used: int)
    requires st == Depot(a, b, used, st.orders, st.vehicles, st.invoices)
    requires IsCrate(a) && IsCrate(b) && used == UsedBy(a) + UsedBy(b) && 0 < used && Errands(st.orders)
    requires Exclusive(st.orders) && Fitted(st)
    requires forall i :: i in st.invoices ==> Reviewed(st.invoices[i]) && Cleared(st.invoices[i])
    ensures Orderly(st)
  {
    DepotIsUpToDate(st, a, b, used);
    DepotIsRacked(st, a, b, used);
    DepotIsAccounted(st, a, b);
  }

  // ---- receiving an order of stored goods ----

  const RECEIVE := Call(DoReceive(4, 1), BOSS, 0)
  const ARRIVAL := Errand(Pickup, 1, ArrivedDestination, None, None)

  lemma ArrivalIsReceived(st: State)
    requires 4 in st.orders && st.orders[4] == ARRIVAL
    requires 1 in st.goods && !st.goods[1].status.Cancelled?
    ensures After(st, RECEIVE) == Received(st, 4)
  {
    Pick(Manifest(ARRIVAL.items), 1);
    assert Manifest(ARRIVAL.items) - {1} == map[];
    assert MayReceive(st, 4, 1, BOSS);
  }

  /** Both crates are stored, one of them by an Admin while its order was still on the road. */
  function StoredEarly(): State {
    Depot(Crate(Stored, Some(2)), Crate(Stored, Some(2)), 200, map[4 := ARRIVAL], map[], map[])
  }

  lemma StoredEarlyIsOrderly()
    ensures Orderly(StoredEarly())
  {
    DepotIsOrderly(StoredEarly(), Crate(Stored, Some(2)), Crate(Stored, Some(2)), 200);
  }

  lemma HalfEmptySlotIsStale(st: State)
    requires st.goods == map[1 := Crate(Inspecting, Some(2)), 6 := Crate(Stored, Some(2))]
    requires 2 in st.slots && st.slots[2].used == 200 && 3 in st.houses && st.houses[3].used == 200
    ensures CachesTooHigh(st) && !UpToDate(st)
  {
    TwoRows(Crate(Inspecting, Some(2)), Crate(Stored, Some(2)), StoredInSlot(2), VolumeOf);
    TwoRows(Crate(Inspecting, Some(2)), Crate(Stored, Some(2)), StoredInHouse(3), VolumeOf);
    assert !SlotUpToDate(st, 2);
  }

  lemma StaleWhenReceived()
    ensures CachesTooHigh(After(StoredEarly(), RECEIVE)) && !UpToDate(After(StoredEarly(), RECEIVE))
  {
    ArrivalIsReceived(StoredEarly());
    var after := Received(StoredEarly(), 4);
    assert after.goods == map[1 := Crate(Inspecting, Some(2)), 6 := Crate(Stored, Some(2))];
    HalfEmptySlotIsStale(after);
  }

  /** Both caches say two cubic metres where one is left. */
  ghost predicate CachesTooHigh(st: State) {
    && 2 in st.slots && st.slots[2].used == 200 && SlotVolume(st.goods, 2) == 10_000
    && 3 in st.houses && st.houses[3].used == 200 && HouseVolume(st.goods, 3) == 10_000
  }

  /** Receiving an order whose good is already stored leaves both caches a cubic metre too high. */
  lemma ReceivingStalesCaches()
    ensures Orderly(StoredEarly())
    ensures CachesTooHigh(After(StoredEarly(), RECEIVE)) && !UpToDate(After(StoredEarly(), RECEIVE))
  {
    StoredEarlyIsOrderly();
    StaleWhenReceived();
  }

  const DELIVERED := Call(DoUpdateOrder(4, OrderStatus.Delivered, Absent, Absent), BOSS, 0)

  lemma WaitsWhenDelivered()
    ensures !Settled(After(StoredEarly(), DELIVERED))
  {
    assert MayUpdateOrder(StoredEarly(), 4, OrderStatus.Delivered, Absent, Absent, BOSS, 0);
    var after := OrderUpdated(StoredEarly(), 4, OrderStatus.Delivered, Absent, Absent);
    assert after.goods[1].status == Stored;
    assert !Waiting(after.goods, after.orders[4]);
  }

  /** An Admin's plain status update leaves an order received with all its goods stored. */
  lemma DeliveredByStatusUpdate()
    ensures Orderly(StoredEarly())
    ensures !Settled(After(StoredEarly(), DELIVERED))
  {
    StoredEarlyIsOrderly();
    WaitsWhenDelivered();
  }

  // ---- verifying what nobody paid ----

  /** One cubic metre rented by customer 7 in warehouse 3, and nothing paid yet. */
  predicate JustRented(inv: Invoice) {
    && inv.customer == 7 && inv.warehouse == 3 && inv.volume == 10_000
    && inv.payments == [] && inv.status.Unpaid? && inv.totalAmount == inv.subtotal + inv.penaltyFee
  }

  function Unbilled(inv: Invoice): State {
    StoredEarly().(invoices := map[5 := inv])
  }

  const VERIFIED := Call(DoVerify(5, Verify), BOSS, 0)

  lemma NothingPaidIsInOrder(inv: Invoice)
    requires JustRented(inv)
    ensures Reviewed(inv) && Cleared(inv)
  {
  }

  lemma OneErrandIsExclusive(o: Order)
    requires o.vehicle.None?
    ensures Exclusive(map[4 := o])
    ensures forall st: State :: st.orders == map[4 := o] ==> Fitted(st)
  {
  }

  /** The depot with the one arrival is orderly, whatever its crates. */
  lemma ArrivalIsOrderly(st: State, a: Goods, b: Goods, used: int, inv: Invoice)
    requires st == Depot(a, b, used, map[4 := ARRIVAL], map[], map[5 := inv])
    requires Reviewed(inv) && Cleared(inv)
    requires IsCrate(a) && IsCrate(b) && used == UsedBy(a) + UsedBy(b) && 0 < used
    ensures Orderly(st)
  {
    OneErrandIsExclusive(ARRIVAL);
    assert Errands(st.orders);
    DepotIsOrderly(st, a, b, used);
  }

  lemma UnbilledIsOrderly(inv: Invoice)
    requires JustRented(inv)
    ensures Orderly(Unbilled(inv))
  {
    NothingPaidIsInOrder(inv);
    ArrivalIsOrderly(Unbilled(inv), Crate(Stored, Some(2)), Crate(Stored, Some(2)), 200, inv);
  }

  lemma PaidWhenVerified(inv: Invoice)
    requires JustRented(inv)
    ensures !AllCleared(After(Unbilled(inv), VERIFIED))
  {
    assert !Cleared(After(Unbilled(inv), VERIFIED).invoices[5]);
  }

  /** Verifying an invoice nobody paid makes it PAID without a verified payment. */
  lemma PaidWithoutPayment(inv: Invoice)
    requires JustRented(inv)
    ensures Orderly(Unbilled(inv))
    ensures !AllCleared(After(Unbilled(inv), VERIFIED))
  {
    UnbilledIsOrderly(inv);
    PaidWhenVerified(inv);
  }

  // ---- goods that come back ----

  /** Good 1 delivered although its order is still open, good 6 filling the cubic metre that is rented. */
  function Full(inv: Invoice): State {
    Depot(Crate(GoodsStatus.Delivered, None), Crate(Stored, Some(2)), 100, map[4 := ARRIVAL], map[], map[5 := inv])
  }

  lemma FullIsRented(inv: Invoice)
    requires JustRented(inv)
    ensures Rented(Full(inv).invoices, 7, 3) == 10_000
  {
    var volumes := Volumes(Rentals(Full(inv).invoices, 7, 3));
    Pick(volumes, 5);
    assert volumes - {5} == map[];
  }

  lemma FullIsBounded(inv: Invoice)
    requires JustRented(inv)
    ensures Bounded(Full(inv), 7, 3)
  {
    FullIsRented(inv);
    var back, kept := Crate(GoodsStatus.Delivered, None), Crate(Stored, Some(2));
    TwoRows(back, kept, OccupiedBy(7, 3), VolumeOf);
    TwoRows(back, kept, OccupiedBy(7, 3), WeightOf);
  }

  lemma TwoOverfillOne(st: State, back: Goods, kept: Goods)
    requires st.goods == map[1 := back, 6 := kept] && Rented(st.invoices, 7, 3) == 10_000
    requires OccupiedBy(7, 3)(back) && OccupiedBy(7, 3)(kept) && back.volume == kept.volume == 10_000
    ensures !Bounded(st, 7, 3)
  {
    TwoRows(back, kept, OccupiedBy(7, 3), VolumeOf);
  }

  lemma FullReceived(inv: Invoice)
    requires JustRented(inv)
    ensures Received(Full(inv), 4).goods == map[1 := Crate(Inspecting, None), 6 := Crate(Stored, Some(2))]
    ensures Received(Full(inv), 4).invoices == Full(inv).invoices
  {
  }

  lemma FullIsOrderly(inv: Invoice)
    requires JustRented(inv)
    ensures Orderly(Full(inv))
  {
    NothingPaidIsInOrder(inv);
    ArrivalIsOrderly(Full(inv), Crate(GoodsStatus.Delivered, None), Crate(Stored, Some(2)), 100, inv);
  }

  lemma OverfullWhenReceived(inv: Invoice)
    requires JustRented(inv)
    ensures !Bounded(After(Full(inv), RECEIVE), 7, 3)
  {
    FullIsRented(inv);
    ArrivalIsReceived(Full(inv));
    FullReceived(inv);
    TwoOverfillOne(Received(Full(inv), 4), Crate(Inspecting, None), Crate(Stored, Some(2)));
  }

  /** Receiving an order whose good was delivered already overfills a full rental. */
  lemma ReturnOverfills(inv: Invoice)
    requires JustRented(inv)
    ensures Orderly(Full(inv)) && Bounded(Full(inv), 7, 3)
    ensures !Bounded(After(Full(inv), RECEIVE), 7, 3)
  {
    FullIsOrderly(inv);
    FullIsBounded(inv);
    OverfullWhenReceived(inv);
  }

  // ---- resuming from DELAYED ----

  /** Two deliveries of one crate each; the only driver is assigned to the first. */
  function TwoErrands(first: OrderStatus, second: OrderStatus, driver: Option<Id>, vehicle: Option<Id>)
    : map<Id, Order>
  {
    map[1 := Errand(Delivery, 1, first, Some(5), Some(3)), 2 := Errand(Delivery, 6, second, driver, vehicle)]
  }

  function Yard(orders: map<Id, Order>, second: VehicleStatus): State {
    Depot(Crate(Stored, Some(2)), Crate(Stored, Some(2)), 200, orders,
          map[3 := Vehicle(Van, 500, 1_000, false, None, InService),
            4 := Vehicle(Van, 500, 1_000, false, None, second)],
          map[])
  }

  function Move(id: Id, t: OrderStatus, vehicle: Field, driver: Field): Call {
    Call(DoUpdateOrder(id, t, vehicle, driver), BOSS, 0)
  }

  function OnTheRoad(): State {
    Yard(TwoErrands(EnRoutePickup, PendingAssignment, None, None), VehicleStatus.Available)
  }

  function Stopped(): State {
    Yard(TwoErrands(Delayed, PendingAssignment, None, None), VehicleStatus.Available)
  }

  function Reassigned(): State {
    Yard(TwoErrands(Delayed, DriverAssigned, Some(5), Some(4)), InService)
  }

  function Shared(): State {
    Yard(TwoErrands(InTransit, DriverAssigned, Some(5), Some(4)), InService)
  }

  lemma ErrandsDiffer(first: Order, second: Order)
    requires first == Errand(first.kind, 1, first.status, first.driver, first.vehicle) && !first.status.Delivered?
    requires second == Errand(second.kind, 6, second.status, second.driver, second.vehicle) && !second.status.Delivered?
    ensures Errands(map[1 := first, 2 := second])
  {
    assert first.items.Keys == {1} && second.items.Keys == {6};
  }

  lemma OnTheRoadIsExclusive()
    ensures Exclusive(OnTheRoad().orders)
  {
  }

  lemma OnTheRoadIsFitted()
    ensures Fitted(OnTheRoad())
  {
  }

  lemma OnTheRoadIsOrderly()
    ensures Orderly(OnTheRoad())
  {
    ErrandsDiffer(OnTheRoad().orders[1], OnTheRoad().orders[2]);
    OnTheRoadIsExclusive();
    OnTheRoadIsFitted();
    DepotIsOrderly(OnTheRoad(), Crate(Stored, Some(2)), Crate(Stored, Some(2)), 200);
  }

  lemma DelayStep()
    ensures After(OnTheRoad(), Move(1, Delayed, Absent, Absent)) == Stopped()
  {
    assert MayUpdateOrder(OnTheRoad(), 1, Delayed, Absent, Absent, BOSS, 0);
    assert OrderUpdated(OnTheRoad(), 1, Delayed, Absent, Absent).orders == Stopped().orders;
    assert OrderUpdated(OnTheRoad(), 1, Delayed, Absent, Absent).goods == Stopped().goods;
  }

  lemma MayReassign()
    ensures MayUpdateOrder(Stopped(), 2, DriverAssigned, Given(4), Given(5), BOSS, 0)
  {
    assert OnVehicle(Stopped().orders, 4, Some(2)) == {} && OnDriver(Stopped().orders, 5, Some(2)) == {};
  }

  lemma ReassignStep()
    ensures After(Stopped(), Move(2, DriverAssigned, Given(4), Given(5))) == Reassigned()
  {
    MayReassign();
    assert OrderUpdated(Stopped(), 2, DriverAssigned, Given(4), Given(5)).orders == Reassigned().orders;
    assert OrderUpdated(Stopped(), 2, DriverAssigned, Given(4), Given(5)).goods == Reassigned().goods;
  }

  lemma ResumeStep()
    ensures After(Reassigned(), Move(1, InTransit, Absent, Absent)) == Shared()
  {
    assert MayUpdateOrder(Reassigned(), 1, InTransit, Absent, Absent, BOSS, 0);
    assert OrderUpdated(Reassigned(), 1, InTransit, Absent, Absent).orders == Shared().orders;
    assert OrderUpdated(Reassigned(), 1, InTransit, Absent, Absent).goods == Shared().goods;
  }

  lemma RunOfThree(st: State, a: Call, b: Call, c: Call)
    ensures Run(st, [a, b, c]) == After(After(After(st, a), b), c)
  {
    var s1 := After(st, a);
    var s2 := After(s1, b);
    RunStep(st, a, [b, c]);
    RunStep(s1, b, [c]);
    RunStep(s2, c, []);
    assert [a] + [b, c] == [a, b, c] && [b] + [c] == [b, c] && [c] + [] == [c];
  }

  function Detour(): seq<Call> {
    [Move(1, Delayed, Absent, Absent), Move(2, DriverAssigned, Given(4), Given(5)), Move(1, InTransit, Absent, Absent)]
  }

  lemma DetourEndsShared()
    ensures Run(OnTheRoad(), Detour()) == Shared()
  {
    RunOfThree(OnTheRoad(), Move(1, Delayed, Absent, Absent), Move(2, DriverAssigned, Given(4), Given(5)),
               Move(1, InTransit, Absent, Absent));
    DelayStep();
    ReassignStep();
    ResumeStep();
  }

  lemma SharedIsNotExclusive()
    ensures !Exclusive(Shared().orders)
  {
    assert !Apart(Shared().orders[1], Shared().orders[2]);
  }

  /** The driver's order is delayed, he is assigned to another, and both go on. */
  lemma ResumingSharesADriver()
    ensures Orderly(OnTheRoad())
    ensures !Exclusive(Run(OnTheRoad(), Detour()).orders)
  {
    OnTheRoadIsOrderly();
    DetourEndsShared();
    SharedIsNotExclusive();
  }

  // ---- a proof of delivery for an order long cancelled ----

  /** Order 2 was cancelled with vehicle 3, which is on the road with order 1 by now. */
  function Reused(): State {
    Yard(TwoErrands(EnRoutePickup, OrderStatus.Cancelled, None, Some(3)), VehicleStatus.Available)
  }

  lemma ReusedIsExclusive()
    ensures Exclusive(Reused().orders)
  {
  }

  lemma ReusedIsFitted()
    ensures Fitted(Reused()) && Serving(Reused())
  {
  }

  lemma ReusedIsOrderly()
    ensures Orderly(Reused())
  {
    ErrandsDiffer(Reused().orders[1], Reused().orders[2]);
    ReusedIsExclusive();
    ReusedIsFitted();
    DepotIsOrderly(Reused(), Crate(Stored, Some(2)), Crate(Stored, Some(2)), 200);
  }

  lemma FreedOnTheRoad()
    ensures !Serving(After(Reused(), Call(DoSubmitPod(2), BOSS, 0)))
  {
    var after := Finished(Reused(), 2);
    assert After(Reused(), Call(DoSubmitPod(2), BOSS, 0)) == after;
    assert !InUse(after.vehicles, after.orders[1].vehicle);
  }

  /** A proof of delivery, accepted in any status, frees a vehicle that another order is using. */
  lemma PodFreesAnothersVehicle()
    ensures Orderly(Reused()) && Serving(Reused())
    ensures !Serving(After(Reused(), Call(DoSubmitPod(2), BOSS, 0)))
  {
    ReusedIsOrderly();
    ReusedIsFitted();
    FreedOnTheRoad();
  }

  // ---- rejecting what was paid ----

  /** An Admin's rejection reopens any PAID invoice. */
  lemma RejectionReopens(st: State, i: Id, now: int)
    requires AllReviewed(st) && i in st.invoices && st.invoices[i].status.Paid?
    ensures var after := After(st, Call(DoVerify(i, Reject), BOSS, now));
      i in after.invoices && !after.invoices[i].status.Paid?
      && Tally(after.invoices[i].payments, Verified) == Tally(st.invoices[i].payments, Verified)
  {
    NothingToResolve(st.invoices[i].payments, Rejected);
  }

  // ---- the corner of the shown availability, and of the legacy allotment ----

  /** Two crates of customer 7 in stock. */
  function TwoInStock(inv: Invoice): State {
    Depot(Crate(Stored, Some(2)), Crate(Stored, Some(2)), 200, map[4 := ARRIVAL], map[], map[5 := inv])
  }

  /** One cubic metre short of a unit is rented for them: shown as full, yet a unit more is let in by
      the shown figure and not by the check. */
  lemma ShownLetsOneMore(inv: Invoice)
    requires JustRented(inv.(volume := 10_000)) && inv.volume == 19_999
    ensures Orderly(TwoInStock(inv)) && Bounded(TwoInStock(inv), 7, 3)
    ensures 1 <= ShownAvailable(TwoInStock(inv), 7, 3, VolumeOf) + 1
    ensures !WithinRental(TwoInStock(inv).goods, TwoInStock(inv).invoices, 7, 3, 1, 0)
  {
    NothingPaidIsInOrder(inv.(volume := 10_000));
    assert Reviewed(inv) && Cleared(inv);
    ArrivalIsOrderly(TwoInStock(inv), Crate(Stored, Some(2)), Crate(Stored, Some(2)), 200, inv);
    OneInvoiceIsRented(inv);
    TwoRows(Crate(Stored, Some(2)), Crate(Stored, Some(2)), OccupiedBy(7, 3), VolumeOf);
    TwoRows(Crate(Stored, Some(2)), Crate(Stored, Some(2)), OccupiedBy(7, 3), WeightOf);
    AvailableIsTheRest(TwoInStock(inv), 7, 3, VolumeOf);
  }

  lemma OneInvoiceIsRented(inv: Invoice)
    requires inv.customer == 7 && inv.warehouse == 3 && !inv.status.Cancelled?
    ensures Rented(map[5 := inv], 7, 3) == inv.volume
  {
    var volumes := Volumes(Rentals(map[5 := inv], 7, 3));
    Pick(volumes, 5);
    assert volumes - {5} == map[];
  }

  /** Without a rental two crates fit the legacy allotment; renting one cubic metre overfills it. */
  lemma FirstRentalOverfills()
    ensures Orderly(StoredEarly()) && Bounded(StoredEarly(), 7, 3)
    ensures !Bounded(After(StoredEarly(), Call(DoRentSpace(5, RentDto(3, Standard, 10_000, 1), 0), TENANT, 0)), 7, 3)
  {
    StoredEarlyIsOrderly();
    TwoFitTheLegacy();
    TwoOverfillTheRental();
  }

  const TENANT := Actor(7, Customer)

  lemma TwoFitTheLegacy()
    ensures Bounded(StoredEarly(), 7, 3)
  {
    TwoRows(Crate(Stored, Some(2)), Crate(Stored, Some(2)), OccupiedBy(7, 3), VolumeOf);
    TwoRows(Crate(Stored, Some(2)), Crate(Stored, Some(2)), OccupiedBy(7, 3), WeightOf);
    assert Volumes(Rentals(StoredEarly().invoices, 7, 3)) == map[];
  }

  lemma TwoOverfillTheRental()
    ensures !Bounded(After(StoredEarly(), Call(DoRentSpace(5, RentDto(3, Standard, 10_000, 1), 0), TENANT, 0)), 7, 3)
  {
    var call := Call(DoRentSpace(5, RentDto(3, Standard, 10_000, 1), 0), TENANT, 0);
    var inv := NewInvoice(RentDto(3, Standard, 10_000, 1), 7, 0);
    var after := After(StoredEarly(), call);
    assert after.invoices == map[5 := inv] && after.goods == StoredEarly().goods;
    OneInvoiceIsRented(inv);
    TwoOverfillOne(after, Crate(Stored, Some(2)), Crate(Stored, Some(2)));
  }

  // ---- called back from the truck ----

  const ON_TRUCK := Errand(Pickup, 1, InTransit, None, None)

  function Travelling(): State {
    Depot(Crate(InTransitInbound, None), Crate(Stored, Some(2)), 100, map[4 := ON_TRUCK], map[], map[])
  }

  lemma TravellingIsOrderly()
    ensures Orderly(Travelling()) && Loaded(Travelling())
  {
    OneErrandIsExclusive(ON_TRUCK);
    assert Errands(Travelling().orders);
    DepotIsOrderly(Travelling(), Crate(InTransitInbound, None), Crate(Stored, Some(2)), 100);
  }

  const CALL_BACK := Call(DoUpdateStatus(1, PendingPickup, None), TENANT, 0)

  lemma WaitsOnTheTruck()
    ensures !Loaded(After(Travelling(), CALL_BACK))
  {
    assert MayUpdateStatus(Travelling(), 1, PendingPickup, None, TENANT);
    var after := Leave(Travelling(), 1, PendingPickup);
    assert after.goods[1].status.PendingPickup? && after.orders[4] == ON_TRUCK;
    assert !OrderLoaded(after.goods, after.orders[4]);
  }

  /** The customer sets goods on the truck back to waiting for pickup. */
  lemma CalledBackFromTheTruck()
    ensures Orderly(Travelling()) && Loaded(Travelling())
    ensures !Loaded(After(Travelling(), CALL_BACK))
  {
    TravellingIsOrderly();
    WaitsOnTheTruck();
  }
}
