/** Status changes and rack transfers at the same time: each reads its goods row, checks the slot
    against the rows of a later moment, and writes and recalculates in the end. Nothing is locked, so
    everything else can come in between. */
module PutAways {
  import opened Domain
  import opened Quantities
  import opened Sums
  import opened Capacity
  import opened Inventory
  import opened System
  import opened RackTheorems

  /** A new status, with a slot for a put-away, or a transfer to a slot. */
  datatype Ask = Change(status: GoodsStatus, slotArg: Option<Id>) | Move(target: Id)

  /** What a request will write: status if any, slot, and, as it read them, the slot and warehouse it
      will recalculate besides. */
  datatype Write = Write(id: Id, status: Option<GoodsStatus>, slot: Option<Id>, from: Option<Id>, warehouse: Id)

  datatype Work = Reading(id: Id, row: Goods, ask: Ask) | Ready(write: Write)

  datatype Sessions = Sessions(db: State, open: map<Id, Work>)

  datatype Step =
    | Read(t: Id, id: Id, ask: Ask, actor: Actor)
    | Check(t: Id)
    | Commit(t: Id)
    | Abort(t: Id)
    | Other(call: Call)

  /** What the first read of a request checks. */
  predicate Admits(db: State, id: Id, ask: Ask, actor: Actor) {
    && id in db.goods
    && var g := db.goods[id];
       match ask
       case Change(status, _) =>
         (actor.role.Customer? ==> g.owner == actor.id) && MaySetGoods(actor.role, status) && GoodsMay(g.status, status)
       case Move(target) =>
         actor.role.Admin? && g.status.Stored? && g.slot.Some? && g.slot.value != target && g.slot.value in db.slots
  }

  /** The slot takes the goods as they were read, next to the stored goods of this moment. */
  ghost predicate TakesRow(db: State, id: Id, row: Goods, s: Id) {
    Takes(db.(goods := db.goods[id := row]), id, s)
  }

  /** What the check makes of a request: its write, if the slot takes the goods. */
  ghost function Prepared(db: State, id: Id, row: Goods, ask: Ask): Option<Write> {
    match ask
    case Move(target) =>
      if TakesRow(db, id, row, target) then Some(Write(id, None, Some(target), row.slot, row.warehouse)) else None
    case Change(status, slotArg) =>
      if !status.Stored? then
        Some(Write(id, Some(status), if Occupying(status) then row.slot else None, row.slot, row.warehouse))
      else
        var target := if slotArg.Some? then slotArg else row.slot;
        if (row.status.Inspecting? || row.status.Stored?) && target.Some? && TakesRow(db, id, row, target.value)
        then Some(Write(id, Some(Stored), target, row.slot, row.warehouse)) else None
  }

  /** Only the written columns of the row change. */
  function RowOf(g: Goods, w: Write): Goods {
    g.(status := if w.status.Some? then w.status.value else g.status, slot := w.slot)
  }

  function Touched(w: Write): set<Id> {
    SlotSet(w.from) + SlotSet(w.slot)
  }

  ghost function Written(st: State, w: Write): State
    requires w.id in st.goods
  {
    var goods := st.goods[w.id := RowOf(st.goods[w.id], w)];
    st.(goods := goods,
        slots := RecalculatedSlots(st.slots, goods, Touched(w)),
        houses := RecalculatedHouses(st.houses, goods, {w.warehouse}),
        orders := if w.status == Some(Stored) then InboundConfirmed(st.orders, goods, w.id) else st.orders)
  }

  predicate Can(ss: Sessions, step: Step) {
    match step
    case Read(t, id, ask, actor) => t !in ss.open && Admits(ss.db, id, ask, actor)
    case Check(t) => t in ss.open && ss.open[t].Reading?
    case Commit(t) => t in ss.open && ss.open[t].Ready? && ss.open[t].write.id in ss.db.goods
    case Abort(t) => t in ss.open
    case Other(call) => !call.request.DoUpdateStatus? && !call.request.DoTransferSlot?
  }

  ghost function Next(ss: Sessions, step: Step): Sessions {
    if !Can(ss, step) then ss else
      match step
      case Read(t, id, ask, _) => ss.(open := ss.open[t := Reading(id, ss.db.goods[id], ask)])
      case Check(t) =>
        var write := Prepared(ss.db, ss.open[t].id, ss.open[t].row, ss.open[t].ask);
        ss.(open := if write.Some? then ss.open[t := Ready(write.value)] else ss.open - {t})
      case Commit(t) => Sessions(Written(ss.db, ss.open[t].write), ss.open - {t})
      case Abort(t) => ss.(open := ss.open - {t})
      case Other(call) => ss.(db := After(ss.db, call))
  }

  // ---- without a pause it is the atomic request ----

  lemma PutAtOnce(st: State, id: Id, slotArg: Option<Id>)
    requires id in st.goods
    ensures var write := Prepared(st, id, st.goods[id], Change(Stored, slotArg));
      && (write.Some? <==> MayPutAway(st, id, slotArg))
      && (write.Some? ==>
            write.value.id == id && Written(st, write.value) == PutAway(st, id, PutTarget(st, id, slotArg).value))
  {
    assert st.(goods := st.goods[id := st.goods[id]]) == st;
    if MayPutAway(st, id, slotArg) {
      var s := PutTarget(st, id, slotArg).value;
      assert SlotSet(st.goods[id].slot) + SlotSet(Some(s)) == {s} + SlotSet(st.goods[id].slot);
    }
  }

  lemma LeaveAtOnce(st: State, id: Id, status: GoodsStatus, slotArg: Option<Id>)
    requires id in st.goods && !status.Stored?
    ensures var write := Prepared(st, id, st.goods[id], Change(status, slotArg));
      write.Some? && write.value.id == id && Written(st, write.value) == Leave(st, id, status)
  {
    var g := st.goods[id];
    assert SlotSet(g.slot) + SlotSet(if Occupying(status) then g.slot else None) == SlotSet(g.slot);
  }

  lemma MoveAtOnce(st: State, id: Id, target: Id, actor: Actor)
    requires Admits(st, id, Move(target), actor)
    ensures var write := Prepared(st, id, st.goods[id], Move(target));
      && (write.Some? <==> MayTransfer(st, id, target, actor))
      && (write.Some? ==> write.value.id == id && Written(st, write.value) == Transferred(st, id, target))
  {
    assert st.(goods := st.goods[id := st.goods[id]]) == st;
    assert SlotSet(st.goods[id].slot) + SlotSet(Some(target)) == {target} + SlotSet(st.goods[id].slot);
  }

  // ---- what a commit needs ----

  /** What the other goods leave of a slot, within half a rounding unit. */
  ghost predicate Room(goods: map<Id, Goods>, id: Id, row: Goods, s: Id, capacity: nat) {
    && SlotVolume(goods - {id}, s) + row.volume <= 100 * capacity + 50
    && SlotWeight(goods - {id}, s) + row.weight <= 50 * capacity + 5
  }

  /** The slot still takes the goods as they are now. */
  ghost predicate StillTakes(st: State, w: Write)
    requires w.id in st.goods
  {
    var row := RowOf(st.goods[w.id], w);
    row.status.Stored? ==>
      && row.slot.Some? && row.slot.value in st.slots
      && var slot := st.slots[row.slot.value];
         && slot.warehouse == row.warehouse && (row.requiresCold ==> slot.zone == ColdStorage)
         && Room(st.goods, w.id, row, row.slot.value, slot.capacity)
  }

  /** The slot and warehouse it read are still the goods' own, or what they lose or gain unnoticed does
      not show after rounding. */
  ghost predicate Covers(st: State, w: Write)
    requires w.id in st.goods
  {
    CoversSlots(st, w) && CoversHouse(st, w)
  }

  ghost predicate CoversSlots(st: State, w: Write)
    requires w.id in st.goods
  {
    var g := st.goods[w.id];
    g.status.Stored? && g.slot.Some? && g.slot.value in st.slots && g.slot.value !in Touched(w) ==>
      SameCentimal(SlotVolume(st.goods, g.slot.value), g.volume)
  }

  ghost predicate CoversHouse(st: State, w: Write)
    requires w.id in st.goods
  {
    var g, row := st.goods[w.id], RowOf(st.goods[w.id], w);
    g.warehouse in st.houses && g.warehouse != w.warehouse && g.status.Stored? != row.status.Stored? ==>
      var stored := HouseVolume(st.goods, g.warehouse);
      if g.status.Stored? then SameCentimal(stored, g.volume) else SameCentimal(stored + g.volume, g.volume)
  }

  /** A request whose goods are still where it read them covers whatever it touches. */
  lemma CurrentReadCovers(st: State, w: Write)
    requires w.id in st.goods && st.goods[w.id].slot == w.from && st.goods[w.id].warehouse == w.warehouse
    ensures Covers(st, w)
  {
  }

  lemma WrittenWithinRack(st: State, w: Write, s: Id)
    requires w.id in st.goods && s in st.slots && WithinRack(st.goods, st.slots[s].capacity, s)
    ensures var row := RowOf(st.goods[w.id], w);
      WithinRack(st.goods[w.id := row], st.slots[s].capacity, s)
      <==> (StoredInSlot(s)(row) ==> Room(st.goods, w.id, row, s, st.slots[s].capacity))
  {
    var row := RowOf(st.goods[w.id], w);
    ReplaceRow(st.goods, w.id, row, StoredInSlot(s), VolumeOf);
    ReplaceRow(st.goods, w.id, row, StoredInSlot(s), WeightOf);
  }

  lemma RackedIsShelved(st: State, w: Write)
    requires w.id in st.goods && Racked(Written(st, w)) && RowOf(st.goods[w.id], w).status.Stored?
    ensures var row := RowOf(st.goods[w.id], w);
      && row.slot.Some? && row.slot.value in st.slots
      && st.slots[row.slot.value].warehouse == row.warehouse
      && (row.requiresCold ==> st.slots[row.slot.value].zone == ColdStorage)
  {
    var after := Written(st, w);
    assert SameRacks(st.slots, after.slots) && after.goods[w.id] == RowOf(st.goods[w.id], w);
    assert Shelved(after, w.id);
  }

  lemma RackedIsTaken(st: State, w: Write)
    requires Racked(st) && w.id in st.goods && Racked(Written(st, w))
    ensures StillTakes(st, w)
  {
    var row := RowOf(st.goods[w.id], w);
    if row.status.Stored? {
      RackedIsShelved(st, w);
      RackedHasRoom(st, w, row.slot.value);
    }
  }

  lemma RackedHasRoom(st: State, w: Write, s: Id)
    requires Racked(st) && w.id in st.goods && Racked(Written(st, w)) && s in st.slots
    requires StoredInSlot(s)(RowOf(st.goods[w.id], w))
    ensures Room(st.goods, w.id, RowOf(st.goods[w.id], w), s, st.slots[s].capacity)
  {
    var after := Written(st, w);
    assert s in after.slots && after.slots[s].capacity == st.slots[s].capacity;
    assert WithinRack(after.goods, after.slots[s].capacity, s);
    WrittenWithinRack(st, w, s);
  }

  lemma TakenIsRacked(st: State, w: Write)
    requires Racked(st) && w.id in st.goods && StillTakes(st, w)
    ensures Racked(Written(st, w))
  {
    var after, row := Written(st, w), RowOf(st.goods[w.id], w);
    assert after.goods == st.goods[w.id := row] && SameRacks(st.slots, after.slots);
    forall g | g in after.goods ensures Shelved(after, g) {
      if g != w.id { assert Shelved(st, g); }
    }
    forall s | s in after.slots ensures WithinRack(after.goods, after.slots[s].capacity, s) {
      WrittenWithinRack(st, w, s);
    }
  }

  lemma CommitAndRacks(st: State, w: Write)
    requires Racked(st) && w.id in st.goods
    ensures Racked(Written(st, w)) <==> StillTakes(st, w)
  {
    if StillTakes(st, w) {
      TakenIsRacked(st, w);
    } else if Racked(Written(st, w)) {
      RackedIsTaken(st, w);
    }
  }

  lemma CommitAndSlot(st: State, w: Write, s: Id)
    requires w.id in st.goods && s in st.slots && SlotUpToDate(st, s)
    ensures SlotUpToDate(Written(st, w), s)
       <==> (StoredInSlot(s)(st.goods[w.id]) && s !in Touched(w) ==>
               SameCentimal(SlotVolume(st.goods, s), st.goods[w.id].volume))
  {
    var g, row := st.goods[w.id], RowOf(st.goods[w.id], w);
    if s !in Touched(w) {
      assert !StoredInSlot(s)(row);
      ReplaceRow(st.goods, w.id, row, StoredInSlot(s), VolumeOf);
      if StoredInSlot(s)(g) {
        MeasureNonNegative(st.goods - {w.id}, StoredInSlot(s), VolumeOf);
        RoundingAfterLess(SlotVolume(st.goods, s), g.volume);
        SameFigureSameSlot(st.slots[s], SlotVolume(st.goods, s), SlotVolume(st.goods[w.id := row], s));
      }
    }
  }

  /** A slot agrees with two sums exactly if they round to the same figure. */
  lemma SameFigureSameSlot(slot: Slot, before: int, after: int)
    requires slot == Recalculated(slot, before)
    ensures slot == Recalculated(slot, after) <==> ToFixed(after, 100) == ToFixed(before, 100)
  {
  }

  /** The other goods of a warehouse, with and without these. */
  lemma WrittenHouse(st: State, w: Write, h: Id)
    requires w.id in st.goods
    ensures var g, row := st.goods[w.id], RowOf(st.goods[w.id], w);
      var rest := HouseVolume(st.goods - {w.id}, h);
      && 0 <= rest
      && HouseVolume(st.goods, h) == rest + (if StoredInHouse(h)(g) then g.volume else 0)
      && HouseVolume(Written(st, w).goods, h) == rest + (if StoredInHouse(h)(row) then g.volume else 0)
  {
    ReplaceRow(st.goods, w.id, RowOf(st.goods[w.id], w), StoredInHouse(h), VolumeOf);
    MeasureNonNegative(st.goods - {w.id}, StoredInHouse(h), VolumeOf);
  }

  lemma CommitAndHouse(st: State, w: Write, h: Id)
    requires w.id in st.goods && h in st.houses && HouseUpToDate(st, h)
    ensures HouseUpToDate(Written(st, w), h) <==> (h == st.goods[w.id].warehouse ==> CoversHouse(st, w))
  {
    if h == w.warehouse {
      assert HouseUpToDate(Written(st, w), h);
    } else if h == st.goods[w.id].warehouse {
      CommitAndOwnHouse(st, w, h);
    } else {
      WrittenHouse(st, w, h);
    }
  }

  lemma CommitAndOwnHouse(st: State, w: Write, h: Id)
    requires w.id in st.goods && h in st.houses && HouseUpToDate(st, h)
    requires h == st.goods[w.id].warehouse && h != w.warehouse
    ensures HouseUpToDate(Written(st, w), h) <==> CoversHouse(st, w)
  {
    var g, row := st.goods[w.id], RowOf(st.goods[w.id], w);
    var rest := HouseVolume(st.goods - {w.id}, h);
    WrittenHouse(st, w, h);
    FigureStays(rest, g.volume, g.status.Stored?, row.status.Stored?, st.houses[h].used);
    assert Written(st, w).houses[h] == st.houses[h];
  }

  /** A figure for the rest, with or without these goods, stays right if nothing or nothing visible changes. */
  lemma FigureStays(rest: int, volume: int, was: bool, now: bool, used: int)
    requires 0 <= rest && 0 <= volume && used == ToFixed(rest + (if was then volume else 0), 100)
    ensures used == ToFixed(rest + (if now then volume else 0), 100)
       <==> (was != now ==> SameCentimal(rest + volume, volume))
  {
    RoundingAfterLess(rest + volume, volume);
  }

  ghost predicate SlotsUpToDate(st: State) {
    forall s :: s in st.slots ==> SlotUpToDate(st, s)
  }

  ghost predicate HousesUpToDate(st: State) {
    forall h :: h in st.houses ==> HouseUpToDate(st, h)
  }

  lemma CommitAndSlots(st: State, w: Write)
    requires SlotsUpToDate(st) && w.id in st.goods
    ensures SlotsUpToDate(Written(st, w)) <==> CoversSlots(st, w)
  {
    var after, g := Written(st, w), st.goods[w.id];
    if CoversSlots(st, w) {
      forall s | s in after.slots ensures SlotUpToDate(after, s) { CommitAndSlot(st, w, s); }
    } else {
      CommitAndSlot(st, w, g.slot.value);
      assert !SlotUpToDate(after, g.slot.value);
    }
  }

  lemma CommitAndHouses(st: State, w: Write)
    requires HousesUpToDate(st) && w.id in st.goods
    ensures HousesUpToDate(Written(st, w)) <==> CoversHouse(st, w)
  {
    var after, g := Written(st, w), st.goods[w.id];
    if CoversHouse(st, w) {
      forall h | h in after.houses ensures HouseUpToDate(after, h) { CommitAndHouse(st, w, h); }
    } else {
      CommitAndHouse(st, w, g.warehouse);
      assert !HouseUpToDate(after, g.warehouse);
    }
  }

  lemma CommitAndCaches(st: State, w: Write)
    requires UpToDate(st) && w.id in st.goods
    ensures UpToDate(Written(st, w)) <==> Covers(st, w)
  {
    CommitAndSlots(st, w);
    CommitAndHouses(st, w);
    assert UpToDate(Written(st, w)) <==> SlotsUpToDate(Written(st, w)) && HousesUpToDate(Written(st, w));
  }

  // ---- whole interleavings ----

  ghost predicate InOrder(db: State) {
    Racked(db) && UpToDate(db)
  }

  /** A commit finds its slot still taking the goods, and recalculates where they were; any other
      request meets its guard. */
  ghost predicate StillRight(ss: Sessions, step: Step) {
    match step
    case Commit(t) => Can(ss, step) ==> StillTakes(ss.db, ss.open[t].write) && Covers(ss.db, ss.open[t].write)
    case Other(call) => Can(ss, step) ==> CacheGuard(ss.db, call)
    case _ => true
  }

  lemma StepAndRacks(ss: Sessions, step: Step)
    requires Racked(ss.db)
    ensures Racked(Next(ss, step).db)
       <==> (step.Commit? && Can(ss, step) ==> StillTakes(ss.db, ss.open[step.t].write))
  {
    if Can(ss, step) {
      match step
      case Commit(t) => CommitAndRacks(ss.db, ss.open[t].write);
      case Other(call) => StepKeepsRacks(ss.db, call);
      case _ => assert Next(ss, step).db == ss.db;
    }
  }

  /** Every step keeps racks within their limits and caches what a full recomputation gives, a commit
      exactly when it is still right. */
  lemma StepAndOrder(ss: Sessions, step: Step)
    requires InOrder(ss.db)
    ensures InOrder(Next(ss, step).db) <==> StillRight(ss, step)
  {
    StepAndRacks(ss, step);
    if Can(ss, step) {
      match step
      case Commit(t) => CommitAndCaches(ss.db, ss.open[t].write);
      case Other(call) => StepAndCaches(ss.db, call);
      case _ => assert Next(ss, step).db == ss.db;
    }
  }

  ghost predicate InOrderThroughout(ss: Sessions, steps: seq<Step>)
    decreases |steps|
  {
    InOrder(ss.db) && (steps == [] || InOrderThroughout(Next(ss, steps[0]), steps[1..]))
  }

  ghost predicate AllStillRight(ss: Sessions, steps: seq<Step>)
    decreases |steps|
  {
    steps == [] || (StillRight(ss, steps[0]) && AllStillRight(Next(ss, steps[0]), steps[1..]))
  }

  /** In every interleaving of status changes and transfers with each other and with all other requests,
      racks are within their limits and caches right throughout, exactly when every commit still is. */
  lemma {:induction false} CommitsDecide(ss: Sessions, steps: seq<Step>)
    requires InOrder(ss.db)
    ensures InOrderThroughout(ss, steps) <==> AllStillRight(ss, steps)
    decreases |steps|
  {
    if steps != [] {
      StepAndOrder(ss, steps[0]);
      if StillRight(ss, steps[0]) {
        CommitsDecide(Next(ss, steps[0]), steps[1..]);
      }
    }
  }

  // ---- two interleavings ----

  function PuttingAway(st: State, id: Id, s: Id): Work
    requires id in st.goods
  {
    Reading(id, st.goods[id], Change(Stored, Some(s)))
  }

  function Passed(st: State, id: Id, s: Id): Work
    requires id in st.goods
  {
    Ready(Write(id, Some(Stored), Some(s), st.goods[id].slot, st.goods[id].warehouse))
  }

  /** A put-away whose goods are as they were read, checked now. */
  lemma CheckPasses(ss: Sessions, t: Id, id: Id, s: Id)
    requires id in ss.db.goods && ss.db.goods[id].status.Inspecting? && Takes(ss.db, id, s)
    requires t in ss.open && ss.open[t] == PuttingAway(ss.db, id, s)
    ensures Next(ss, Check(t)) == ss.(open := ss.open[t := Passed(ss.db, id, s)])
  {
    assert ss.db.(goods := ss.db.goods[id := ss.db.goods[id]]) == ss.db;
  }

  lemma CheckOne(st: State, second: Work, a: Id, s: Id)
    requires a in st.goods && st.goods[a].status.Inspecting? && Takes(st, a, s)
    ensures Next(Sessions(st, map[1 := PuttingAway(st, a, s), 2 := second]), Check(1))
         == Sessions(st, map[1 := Passed(st, a, s), 2 := second])
  {
    var open, after := map[1 := PuttingAway(st, a, s), 2 := second], map[1 := Passed(st, a, s), 2 := second];
    assert open[1 := Passed(st, a, s)] == after;
    CheckPasses(Sessions(st, open), 1, a, s);
  }

  lemma FirstPasses(st: State, a: Id, b: Id, s: Id)
    requires a in st.goods && b in st.goods && st.goods[a].status.Inspecting? && Takes(st, a, s)
    ensures Next(Sessions(st, map[1 := PuttingAway(st, a, s), 2 := PuttingAway(st, b, s)]), Check(1))
         == Sessions(st, map[1 := Passed(st, a, s), 2 := PuttingAway(st, b, s)])
  {
    CheckOne(st, PuttingAway(st, b, s), a, s);
  }

  lemma SecondPasses(st: State, first: Work, b: Id, s: Id)
    requires b in st.goods && st.goods[b].status.Inspecting? && Takes(st, b, s)
    ensures Next(Sessions(st, map[1 := first, 2 := PuttingAway(st, b, s)]), Check(2))
         == Sessions(st, map[1 := first, 2 := Passed(st, b, s)])
  {
    var open := map[1 := first, 2 := PuttingAway(st, b, s)];
    CheckPasses(Sessions(st, open), 2, b, s);
    assert open[2 := Passed(st, b, s)] == map[1 := first, 2 := Passed(st, b, s)];
  }

  lemma CommitsBoth(st: State, one: Write, two: Write)
    requires one.id in st.goods && two.id in st.goods
    ensures var ss := Sessions(st, map[1 := Ready(one), 2 := Ready(two)]);
      Next(Next(ss, Commit(1)), Commit(2)).db == Written(Written(st, one), two)
  {
    var ss := Sessions(st, map[1 := Ready(one), 2 := Ready(two)]);
    var after := Next(ss, Commit(1));
    assert after == Sessions(Written(st, one), ss.open - {1});
    assert after.open[2] == Ready(two);
  }

  /** Two goods that each fit a slot alone: checked together, both are put away. */
  lemma TogetherTheyOverfill(st: State, a: Id, b: Id, s: Id)
    requires a in st.goods && b in st.goods && a != b
    requires st.goods[a].status.Inspecting? && st.goods[b].status.Inspecting?
    requires Takes(st, a, s) && Takes(st, b, s)
    requires 100 * st.slots[s].capacity + 50 < SlotVolume(st.goods, s) + st.goods[a].volume + st.goods[b].volume
    ensures var ss := Sessions(st, map[1 := PuttingAway(st, a, s), 2 := PuttingAway(st, b, s)]);
      !Racked(Next(Next(Next(Next(ss, Check(1)), Check(2)), Commit(1)), Commit(2)).db)
  {
    FirstPasses(st, a, b, s);
    SecondPasses(st, Passed(st, a, s), b, s);
    CommitsBoth(st, Passed(st, a, s).write, Passed(st, b, s).write);
    BothWritten(st, Passed(st, a, s).write, Passed(st, b, s).write, s);
  }

  lemma BothWritten(st: State, one: Write, two: Write, s: Id)
    requires one.id in st.goods && two.id in st.goods && one.id != two.id && s in st.slots
    requires one.status == Some(Stored) && one.slot == Some(s) && two.status == Some(Stored) && two.slot == Some(s)
    requires !st.goods[one.id].status.Stored? && !st.goods[two.id].status.Stored?
    requires 100 * st.slots[s].capacity + 50
           < SlotVolume(st.goods, s) + st.goods[one.id].volume + st.goods[two.id].volume
    ensures !Racked(Written(Written(st, one), two))
  {
    var middle := Written(st, one);
    ReplaceRow(st.goods, one.id, RowOf(st.goods[one.id], one), StoredInSlot(s), VolumeOf);
    ReplaceRow(middle.goods, two.id, RowOf(middle.goods[two.id], two), StoredInSlot(s), VolumeOf);
    assert !WithinRack(Written(middle, two).goods, st.slots[s].capacity, s);
  }

  lemma FirstTransfer(st: State, w: Write)
    requires UpToDate(st) && w.id in st.goods
    requires st.goods[w.id].slot == w.from && st.goods[w.id].warehouse == w.warehouse
    ensures UpToDate(Written(st, w))
  {
    CurrentReadCovers(st, w);
    CommitAndCaches(st, w);
  }

  /** Two writes that read the same slot: the first one's slot keeps a figure for goods that left it. */
  lemma SecondTransferStales(st: State, one: Write, two: Write, t: Id)
    requires UpToDate(st) && one.id in st.goods && one.id == two.id
    requires st.goods[one.id].slot == one.from == two.from && st.goods[one.id].warehouse == one.warehouse
    requires st.goods[one.id].status.Stored? && 100 <= st.goods[one.id].volume
    requires one.status.None? && one.slot == Some(t) && t in st.slots && two.from != Some(t) && two.slot != Some(t)
    ensures UpToDate(Written(st, one))
    ensures !UpToDate(Written(Written(st, one), two))
  {
    FirstTransfer(st, one);
    assert t !in Touched(two);
    LandsAndLeaves(st, one, two, t);
  }

  lemma LandsAndLeaves(st: State, one: Write, two: Write, t: Id)
    requires one.id in st.goods && one.id == two.id && UpToDate(Written(st, one))
    requires st.goods[one.id].status.Stored? && 100 <= st.goods[one.id].volume
    requires one.status.None? && one.slot == Some(t) && t in st.slots && t !in Touched(two)
    ensures two.id in Written(st, one).goods && !UpToDate(Written(Written(st, one), two))
  {
    Landed(st, one, t);
    LeftBehind(Written(st, one), two, t);
  }

  lemma Landed(st: State, w: Write, t: Id)
    requires w.id in st.goods && st.goods[w.id].status.Stored? && w.status.None? && w.slot == Some(t) && t in st.slots
    ensures var middle := Written(st, w);
      && w.id in middle.goods && StoredInSlot(t)(middle.goods[w.id]) && t in middle.slots
      && middle.goods[w.id].volume == st.goods[w.id].volume
  {
  }

  lemma LeftBehind(st: State, w: Write, t: Id)
    requires UpToDate(st) && w.id in st.goods && t in st.slots && t !in Touched(w)
    requires StoredInSlot(t)(st.goods[w.id]) && 100 <= st.goods[w.id].volume
    ensures !UpToDate(Written(st, w))
  {
    assert !CoversSlots(st, w);
    CommitAndSlots(st, w);
  }
}
