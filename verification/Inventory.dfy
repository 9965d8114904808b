/** What each goods request does to the tables: registration, status changes with put-away,
    and rack transfers. */
module Inventory {
  import opened Domain
  import opened Quantities
  import opened Sums
  import opened Capacity
  import Pricing

  const LEGACY_ALLOTMENT := 500_000
  const MONTH := 2_629_800_000

  // ---- rack slots ----

  /** Room left in a slot, as each check rounds it: two decimals of m3, one of kg. */
  ghost predicate HasRoom(goods: map<Id, Goods>, id: Id, s: Id, slot: Slot)
    requires id in goods
  {
    && goods[id].volume <= Max(0, 100 * ToFixed(100 * slot.capacity - SlotVolume(goods - {id}, s), 100))
    && goods[id].weight <= Max(0, 10 * ToFixed(50 * slot.capacity - SlotWeight(goods - {id}, s), 10))
  }

  /** The checks a slot has to pass before goods are put away in it or moved to it. */
  ghost predicate Takes(st: State, id: Id, s: Id)
    requires id in st.goods
  {
    && s in st.slots
    && st.slots[s].warehouse == st.goods[id].warehouse
    && st.slots[s].status != SlotStatus.Maintenance
    && (st.goods[id].requiresCold ==> st.slots[s].zone == ColdStorage)
    && HasRoom(st.goods, id, s, st.slots[s])
  }

  function SlotSet(slot: Option<Id>): set<Id> {
    if slot.Some? then {slot.value} else {}
  }

  /** Write one goods row, then recalculate the touched slots and its warehouse. */
  ghost function Moved(st: State, id: Id, row: Goods, touched: set<Id>): State {
    var goods := st.goods[id := row];
    st.(goods := goods,
        slots := RecalculatedSlots(st.slots, goods, touched),
        houses := RecalculatedHouses(st.houses, goods, {row.warehouse}))
  }

  predicate AllStored(goods: map<Id, Goods>, items: map<Id, nat>) {
    forall g :: g in items ==> g in goods && goods[g].status == Stored
  }

  /** A received inbound order that carries `id`. */
  predicate AwaitsStorage(order: Order, id: Id) {
    order.kind == Pickup && order.status == OrderStatus.Delivered && id in order.items
  }

  function ConfirmedIfStored(order: Order, goods: map<Id, Goods>): Order {
    if AllStored(goods, order.items) then order.(status := Confirmed) else order
  }

  /** Every received inbound order that carries `id` and now has all its goods stored is confirmed. */
  function InboundConfirmed(orders: map<Id, Order>, goods: map<Id, Goods>, id: Id): map<Id, Order> {
    map o | o in orders :: if AwaitsStorage(orders[o], id) then ConfirmedIfStored(orders[o], goods) else orders[o]
  }

  function PutTarget(st: State, id: Id, slotArg: Option<Id>): Option<Id>
    requires id in st.goods
  {
    if slotArg.Some? then slotArg else st.goods[id].slot
  }

  ghost predicate MayPutAway(st: State, id: Id, slotArg: Option<Id>)
    requires id in st.goods
  {
    && (st.goods[id].status.Inspecting? || st.goods[id].status.Stored?)
    && PutTarget(st, id, slotArg).Some?
    && Takes(st, id, PutTarget(st, id, slotArg).value)
  }

  ghost function PutAway(st: State, id: Id, s: Id): State
    requires id in st.goods
  {
    var g := st.goods[id];
    var after := Moved(st, id, g.(status := Stored, slot := Some(s)), {s} + SlotSet(g.slot));
    after.(orders := InboundConfirmed(st.orders, after.goods, id))
  }

  /** A change to any status but STORED; a terminal one gives up the slot. */
  ghost function Leave(st: State, id: Id, status: GoodsStatus): State
    requires id in st.goods
  {
    var g := st.goods[id];
    Moved(st, id, g.(status := status, slot := if Occupying(status) then g.slot else None), SlotSet(g.slot))
  }

  ghost predicate MayUpdateStatus(st: State, id: Id, status: GoodsStatus, slotArg: Option<Id>, actor: Actor) {
    && id in st.goods
    && (actor.role.Customer? ==> st.goods[id].owner == actor.id)
    && MaySetGoods(actor.role, status) && GoodsMay(st.goods[id].status, status)
    && (status.Stored? ==> MayPutAway(st, id, slotArg))
  }

  ghost function UpdateStatus(st: State, id: Id, status: GoodsStatus, slotArg: Option<Id>, actor: Actor): Reply<State> {
    if !MayUpdateStatus(st, id, status, slotArg, actor) then Refused
    else if status.Stored? then Accepted(PutAway(st, id, PutTarget(st, id, slotArg).value))
    else Accepted(Leave(st, id, status))
  }

  ghost predicate MayTransfer(st: State, id: Id, target: Id, actor: Actor) {
    && actor.role.Admin? && id in st.goods
    && st.goods[id].status.Stored? && st.goods[id].slot.Some?
    && st.goods[id].slot.value != target && st.goods[id].slot.value in st.slots
    && Takes(st, id, target)
  }

  ghost function Transferred(st: State, id: Id, target: Id): State
    requires id in st.goods
  {
    var g := st.goods[id];
    Moved(st, id, g.(slot := Some(target)), {target} + SlotSet(g.slot))
  }

  ghost function TransferSlot(st: State, id: Id, target: Id, actor: Actor): Reply<State> {
    if MayTransfer(st, id, target, actor) then Accepted(Transferred(st, id, target)) else Refused
  }

  // ---- registration against the rented space ----

  datatype GoodsDto = GoodsDto(
    customer: Option<Id>, warehouse: Id, length: int, width: int, height: int, weight: nat,
    quantity: Count, category: Category, requiresCold: bool, pickupRequired: bool)
  {
    function Volume(): nat { Pricing.TotalVolume(Pricing.UnitVolume(length, width, height), quantity) }

    predicate Cold() { requiresCold || category == ColdFood }

    function Row(owner: Id): Goods {
      Goods(owner, warehouse, None, if pickupRequired then PendingPickup else Draft,
            Volume(), weight, quantity, category, Cold())
    }
  }

  /** The rental agreements of one customer in one warehouse. */
  function Rentals(invoices: map<Id, Invoice>, c: Id, w: Id): map<Id, Invoice> {
    map i | i in invoices && invoices[i].customer == c && invoices[i].warehouse == w
            && invoices[i].status != InvoiceStatus.Cancelled :: invoices[i]
  }

  ghost function Volumes(rentals: map<Id, Invoice>): map<Id, int> {
    map i | i in rentals :: rentals[i].volume
  }

  ghost function Rented(invoices: map<Id, Invoice>, c: Id, w: Id): int {
    Sum(Volumes(Rentals(invoices, c, w)))
  }

  /** Without any rented volume a legacy allocation of 50 m3 applies. */
  function Allotment(rented: int): int {
    if rented == 0 then LEGACY_ALLOTMENT else rented
  }

  function OccupiedBy(c: Id, w: Id): Goods -> bool {
    (g: Goods) => g.owner == c && g.warehouse == w && Occupying(g.status)
  }

  function EndOf(rental: Invoice): int {
    rental.issued + rental.months * MONTH
  }

  /** Newest first by issue date; equal dates in descending order of id. */
  predicate NoNewer(rentals: map<Id, Invoice>, j: Id, i: Id)
    requires i in rentals && j in rentals
  {
    rentals[j].issued < rentals[i].issued || (rentals[j].issued == rentals[i].issued && j <= i)
  }

  predicate IsNewest(rentals: map<Id, Invoice>, i: Id) {
    i in rentals && forall j :: j in rentals ==> NoNewer(rentals, j, i)
  }

  lemma {:induction false} NewestExists(rentals: map<Id, Invoice>)
    requires rentals != map[]
    ensures exists i :: IsNewest(rentals, i)
    decreases rentals.Keys
  {
    var k :| k in rentals;
    var others := rentals - {k};
    if others == map[] {
      forall j | j in rentals ensures NoNewer(rentals, j, k) {
        assert j != k ==> j in others;
      }
      assert IsNewest(rentals, k);
    } else {
      NewestExists(others);
      var i :| IsNewest(others, i);
      forall j | j in rentals && j != k ensures NoNewer(rentals, j, i) {
        assert NoNewer(others, j, i);
      }
      assert IsNewest(rentals, if NoNewer(rentals, k, i) then i else k);
    }
  }

  lemma OnlyOneIsNewest(rentals: map<Id, Invoice>)
    ensures forall i, j :: IsNewest(rentals, i) && IsNewest(rentals, j) ==> i == j
  {
    forall i, j | IsNewest(rentals, i) && IsNewest(rentals, j) ensures i == j {
      assert NoNewer(rentals, i, j) && NoNewer(rentals, j, i);
    }
  }

  ghost function StorageType(rentals: map<Id, Invoice>, house: Warehouse): Zone {
    if i :| IsNewest(rentals, i) then rentals[i].zone
    else if house.coldByDefault then ColdStorage else Standard
  }

  ghost predicate Expired(rentals: map<Id, Invoice>, now: int) {
    Sum(Volumes(rentals)) != 0 && forall i :: i in rentals ==> EndOf(rentals[i]) < now
  }

  predicate KnownTenant(goods: map<Id, Goods>, c: Id, w: Id) {
    exists g :: g in goods && goods[g].owner == c && goods[g].warehouse == w
  }

  /** The two limits a registration is checked against, with the tolerance of 0.0001 m3 and 0.01 kg;
      100 kg for each m3 makes the weight limit the same number of units. */
  ghost predicate WithinRental(goods: map<Id, Goods>, invoices: map<Id, Invoice>, c: Id, w: Id, volume: int,
    weight: int) {
    var allotment := Allotment(Rented(invoices, c, w));
    && Measure(goods, OccupiedBy(c, w), VolumeOf) + volume <= allotment + 1
    && Measure(goods, OccupiedBy(c, w), WeightOf) + weight <= allotment + 1
  }

  ghost predicate MayRegister(st: State, id: Id, dto: GoodsDto, actor: Actor, now: int) {
    var c, w := OnBehalf(actor, dto.customer), dto.warehouse;
    var rentals := Rentals(st.invoices, c, w);
    && !actor.role.Driver? && id !in st.goods && c in st.users && w in st.houses && st.houses[w].active
    && (Sum(Volumes(rentals)) == 0 && actor.role.Customer? ==> KnownTenant(st.goods, c, w))
    && StorageType(rentals, st.houses[w]).ColdStorage? == dto.Cold()
    && !Expired(rentals, now)
    && WithinRental(st.goods, st.invoices, c, w, dto.Volume(), dto.weight)
  }

  ghost function Register(st: State, id: Id, dto: GoodsDto, actor: Actor, now: int): Reply<State> {
    if MayRegister(st, id, dto, actor, now)
    then Accepted(st.(goods := st.goods[id := dto.Row(OnBehalf(actor, dto.customer))]))
    else Refused
  }
}
