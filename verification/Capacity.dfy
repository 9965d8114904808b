/** Occupancy of rack slots and warehouses: the cached `usedM3`, slot status and
    `usedCapacityM3`, and the sums over STORED goods they are meant to be. */
module Capacity {
  import opened Domain
  import opened Quantities
  import opened Sums

  ghost function Rows(goods: map<Id, Goods>, where: Goods -> bool, measure: Goods -> int): map<Id, int> {
    map g | g in goods && where(goods[g]) :: measure(goods[g])
  }

  /** `aggregate`/`reduce` of one measure over the goods rows a filter selects. */
  ghost function Measure(goods: map<Id, Goods>, where: Goods -> bool, measure: Goods -> int): int {
    Sum(Rows(goods, where, measure))
  }

  function StoredInSlot(s: Id): Goods -> bool {
    (g: Goods) => g.status == Stored && g.slot == Some(s)
  }

  function StoredInHouse(w: Id): Goods -> bool {
    (g: Goods) => g.status == Stored && g.warehouse == w
  }

  ghost function SlotVolume(goods: map<Id, Goods>, s: Id): int { Measure(goods, StoredInSlot(s), VolumeOf) }

  ghost function SlotWeight(goods: map<Id, Goods>, s: Id): int { Measure(goods, StoredInSlot(s), WeightOf) }

  ghost function HouseVolume(goods: map<Id, Goods>, w: Id): int { Measure(goods, StoredInHouse(w), VolumeOf) }

  /** What recalculating writes: two decimals of the sum, and the status it implies. */
  function Recalculated(slot: Slot, stored: int): Slot {
    var used := ToFixed(stored, 100);
    slot.(used := used,
          status := if slot.status == SlotStatus.Maintenance then SlotStatus.Maintenance
                    else if used == 0 then SlotStatus.Available else Occupied)
  }

  ghost function RecalculatedSlots(slots: map<Id, Slot>, goods: map<Id, Goods>, touched: set<Id>): map<Id, Slot> {
    map s | s in slots :: if s in touched then Recalculated(slots[s], SlotVolume(goods, s)) else slots[s]
  }

  ghost function RecalculatedHouses(houses: map<Id, Warehouse>, goods: map<Id, Goods>, touched: set<Id>)
    : map<Id, Warehouse>
  {
    map w | w in houses ::
      if w in touched then houses[w].(used := ToFixed(HouseVolume(goods, w), 100)) else houses[w]
  }

  /** `reconcileAllCapacity`: every slot and every warehouse. */
  ghost function Reconciled(st: State): State {
    st.(slots := RecalculatedSlots(st.slots, st.goods, st.slots.Keys),
        houses := RecalculatedHouses(st.houses, st.goods, st.houses.Keys))
  }

  ghost predicate SlotUpToDate(st: State, s: Id)
    requires s in st.slots
  {
    st.slots[s] == Recalculated(st.slots[s], SlotVolume(st.goods, s))
  }

  ghost predicate HouseUpToDate(st: State, w: Id)
    requires w in st.houses
  {
    st.houses[w].used == ToFixed(HouseVolume(st.goods, w), 100)
  }

  ghost predicate UpToDate(st: State) {
    && (forall s :: s in st.slots ==> SlotUpToDate(st, s))
    && (forall w :: w in st.houses ==> HouseUpToDate(st, w))
  }

  lemma ReconcileEstablishes(st: State)
    ensures UpToDate(Reconciled(st))
  {
    var after := Reconciled(st);
    forall s | s in after.slots ensures SlotUpToDate(after, s) {
      assert after.slots[s] == Recalculated(st.slots[s], SlotVolume(st.goods, s));
    }
    forall w | w in after.houses ensures HouseUpToDate(after, w) {
      assert after.houses[w].used == ToFixed(HouseVolume(st.goods, w), 100);
    }
  }

  lemma UpToDateIsUnchanged(st: State)
    requires UpToDate(st)
    ensures Reconciled(st) == st
  {
    var slots := RecalculatedSlots(st.slots, st.goods, st.slots.Keys);
    var houses := RecalculatedHouses(st.houses, st.goods, st.houses.Keys);
    assert slots == st.slots by {
      forall s | s in st.slots ensures slots[s] == st.slots[s] { assert SlotUpToDate(st, s); }
    }
    assert houses == st.houses by {
      forall w | w in st.houses ensures houses[w] == st.houses[w] { assert HouseUpToDate(st, w); }
    }
  }

  /** Running the reconciliation changes nothing exactly when the caches are up to date. */
  lemma ReconcileIsTheFixpoint(st: State)
    ensures Reconciled(st) == st <==> UpToDate(st)
  {
    if UpToDate(st) {
      UpToDateIsUnchanged(st);
    } else {
      ReconcileEstablishes(st);
    }
  }

  /** Replacing one row moves the measure by that row alone. */
  lemma ReplaceRow(goods: map<Id, Goods>, id: Id, g: Goods, where: Goods -> bool, measure: Goods -> int)
    ensures Measure(goods[id := g], where, measure)
         == Measure(goods - {id}, where, measure) + if where(g) then measure(g) else 0
    ensures Measure(goods, where, measure)
         == Measure(goods - {id}, where, measure)
          + if id in goods && where(goods[id]) then measure(goods[id]) else 0
  {
    var before, after := Rows(goods, where, measure), Rows(goods[id := g], where, measure);
    Drop(before, id);
    Drop(after, id);
    assert before - {id} == Rows(goods - {id}, where, measure);
    assert after - {id} == Rows(goods - {id}, where, measure);
  }

  /** A filter that selects no more than before, row by row, measures no more. */
  lemma MeasureMonotone(goods: map<Id, Goods>, after: map<Id, Goods>, where: Goods -> bool, measure: Goods -> int)
    requires forall k :: k in goods ==> 0 <= measure(goods[k])
    requires forall k :: k in after && where(after[k]) ==>
      k in goods && where(goods[k]) && measure(after[k]) == measure(goods[k])
    ensures Measure(after, where, measure) <= Measure(goods, where, measure)
  {
    Compare(Rows(after, where, measure), Rows(goods, where, measure));
  }

  lemma MeasureSame(goods: map<Id, Goods>, after: map<Id, Goods>, where: Goods -> bool, measure: Goods -> int)
    requires forall k :: (k in goods && where(goods[k])) <==> (k in after && where(after[k]))
    requires forall k :: k in goods && where(goods[k]) ==> measure(after[k]) == measure(goods[k])
    ensures Measure(after, where, measure) == Measure(goods, where, measure)
  {
    assert Rows(after, where, measure) == Rows(goods, where, measure);
  }

  lemma MeasureNonNegative(goods: map<Id, Goods>, where: Goods -> bool, measure: Goods -> int)
    requires forall k :: k in goods ==> 0 <= measure(goods[k])
    ensures 0 <= Measure(goods, where, measure)
  {
    NonNegative(Rows(goods, where, measure));
  }

  /** Two disjoint filters that make up a third. */
  lemma MeasureSplit(goods: map<Id, Goods>, left: Goods -> bool, right: Goods -> bool, whole: Goods -> bool,
    measure: Goods -> int)
    requires forall g :: g in goods ==> whole(goods[g]) == (left(goods[g]) || right(goods[g]))
    requires forall g :: g in goods ==> !(left(goods[g]) && right(goods[g]))
    ensures Measure(goods, whole, measure) == Measure(goods, left, measure) + Measure(goods, right, measure)
  {
    var l, r, w := Rows(goods, left, measure), Rows(goods, right, measure), Rows(goods, whole, measure);
    forall k | k in l.Keys + r.Keys + w.Keys ensures At(w, k) == At(l, k) + At(r, k) {
      assert k in goods;
    }
    Add(l, r, w);
  }
}
