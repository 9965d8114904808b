/** Goods stay within the rented space, and the availability shown is the availability enforced. */
module RentalTheorems {
  import opened Domain
  import opened Quantities
  import opened Sums
  import opened Capacity
  import opened Inventory
  import opened Dispatch
  import opened Tenancy
  import opened System
  import opened BillingTheorems

  // ---- what a customer is shown ----

  function ShownStored(c: Id, w: Id): Goods -> bool {
    (g: Goods) => g.owner == c && g.warehouse == w &&
      (g.status.Stored? || g.status.PendingDelivery? || g.status.InTransitOutbound?)
  }

  function ShownReceiving(c: Id, w: Id): Goods -> bool {
    (g: Goods) => g.owner == c && g.warehouse == w && g.status.Inspecting?
  }

  function ShownWaiting(c: Id, w: Id): Goods -> bool {
    (g: Goods) => g.owner == c && g.warehouse == w &&
      (g.status.Draft? || g.status.PendingPickup? || g.status.InTransitInbound?)
  }

  function ShownArriving(c: Id, w: Id): Goods -> bool {
    (g: Goods) => g.owner == c && g.warehouse == w
                  && (g.status.Inspecting? || g.status.Draft? || g.status.PendingPickup? || g.status.InTransitInbound?)
  }

  /** `usedVolumeM3` and `usedWeightKg`: three sums, each rounded, then rounded again. */
  ghost function ShownUsed(goods: map<Id, Goods>, c: Id, w: Id, measure: Goods -> int): int {
    ToFixed(ToFixed(Measure(goods, ShownStored(c, w), measure), 1)
            + ToFixed(Measure(goods, ShownReceiving(c, w), measure), 1)
            + ToFixed(Measure(goods, ShownWaiting(c, w), measure), 1), 1)
  }

  /** `availableVolumeM3`, with the same legacy fallback as registration. */
  ghost function ShownAvailable(st: State, c: Id, w: Id, measure: Goods -> int): int {
    Max(0, ToFixed(Allotment(Rented(st.invoices, c, w)) - ShownUsed(st.goods, c, w, measure), 1))
  }

  lemma ArrivingSplit(goods: map<Id, Goods>, c: Id, w: Id, measure: Goods -> int)
    ensures Measure(goods, ShownArriving(c, w), measure)
         == Measure(goods, ShownReceiving(c, w), measure) + Measure(goods, ShownWaiting(c, w), measure)
  {
    MeasureSplit(goods, ShownReceiving(c, w), ShownWaiting(c, w), ShownArriving(c, w), measure);
  }

  lemma OccupiedSplit(goods: map<Id, Goods>, c: Id, w: Id, measure: Goods -> int)
    ensures Measure(goods, OccupiedBy(c, w), measure)
         == Measure(goods, ShownStored(c, w), measure) + Measure(goods, ShownArriving(c, w), measure)
  {
    MeasureSplit(goods, ShownStored(c, w), ShownArriving(c, w), OccupiedBy(c, w), measure);
  }

  /** The three groups shown to a customer are exactly the goods registration counts. */
  lemma ShownIsEnforced(goods: map<Id, Goods>, c: Id, w: Id, measure: Goods -> int)
    ensures ShownUsed(goods, c, w, measure) == Measure(goods, OccupiedBy(c, w), measure)
  {
    ArrivingSplit(goods, c, w, measure);
    OccupiedSplit(goods, c, w, measure);
  }

  lemma AvailableIsTheRest(st: State, c: Id, w: Id, measure: Goods -> int)
    ensures ShownAvailable(st, c, w, measure)
         == Max(0, Allotment(Rented(st.invoices, c, w)) - Measure(st.goods, OccupiedBy(c, w), measure))
  {
    ShownIsEnforced(st.goods, c, w, measure);
  }

  /** A request passes the volume check exactly when it is within the shown availability plus the
      tolerance, as long as no more is occupied than rented; the two differ only in the overdrawn corner. */
  lemma AvailabilityDecides(st: State, c: Id, w: Id, requested: nat)
    ensures var occupied, allotment := Measure(st.goods, OccupiedBy(c, w), VolumeOf),
        Allotment(Rented(st.invoices, c, w));
      (occupied + requested <= allotment + 1 <==> requested <= ShownAvailable(st, c, w, VolumeOf) + 1)
        <==> occupied <= allotment || 1 < requested || (occupied == allotment + 1 && requested == 0)
  {
    ShownIsEnforced(st.goods, c, w, VolumeOf);
  }

  /** The three volumes shown, in the order the goods pass through them. */
  datatype Figures = Figures(waiting: int, receiving: int, stored: int)

  ghost function Shown(goods: map<Id, Goods>, c: Id, w: Id): Figures {
    Figures(Measure(goods, ShownWaiting(c, w), VolumeOf), Measure(goods, ShownReceiving(c, w), VolumeOf),
            Measure(goods, ShownStored(c, w), VolumeOf))
  }

  /** What a row in this status adds to them. */
  function WithRow(shown: Figures, s: GoodsStatus, volume: int): Figures {
    match s
    case Draft => shown.(waiting := shown.waiting + volume)
    case PendingPickup => shown.(waiting := shown.waiting + volume)
    case InTransitInbound => shown.(waiting := shown.waiting + volume)
    case Inspecting => shown.(receiving := shown.receiving + volume)
    case Stored => shown.(stored := shown.stored + volume)
    case PendingDelivery => shown.(stored := shown.stored + volume)
    case InTransitOutbound => shown.(stored := shown.stored + volume)
    case Delivered => shown
    case Cancelled => shown
  }

  lemma RowIsShown(goods: map<Id, Goods>, id: Id, row: Goods)
    ensures Shown(goods[id := row], row.owner, row.warehouse)
         == WithRow(Shown(goods - {id}, row.owner, row.warehouse), row.status, row.volume)
  {
    var c, w := row.owner, row.warehouse;
    ReplaceRow(goods, id, row, ShownStored(c, w), VolumeOf);
    ReplaceRow(goods, id, row, ShownReceiving(c, w), VolumeOf);
    ReplaceRow(goods, id, row, ShownWaiting(c, w), VolumeOf);
  }

  lemma RegistrationWritesOneRow(st: State, call: Call)
    requires call.request.DoRegister? && Apply(st, call).Accepted?
    ensures var id, dto := call.request.id, call.request.goods;
      id !in st.goods && After(st, call).goods == st.goods[id := dto.Row(OnBehalf(call.actor, dto.customer))]
  {
  }

  /** A registration adds its volume to what is shown waiting. */
  lemma RegistrationIsShown(st: State, call: Call)
    requires call.request.DoRegister? && Apply(st, call).Accepted?
    ensures var dto := call.request.goods; var c := OnBehalf(call.actor, dto.customer);
      var before, after := Shown(st.goods, c, dto.warehouse), Shown(After(st, call).goods, c, dto.warehouse);
      after == before.(waiting := before.waiting + dto.Volume())
  {
    var id, dto := call.request.id, call.request.goods;
    RegistrationWritesOneRow(st, call);
    assert st.goods - {id} == st.goods;
    RowIsShown(st.goods, id, dto.Row(OnBehalf(call.actor, dto.customer)));
  }

  lemma RowsCommute(shown: Figures, s: GoodsStatus, t: GoodsStatus, volume: int)
    ensures WithRow(WithRow(shown, s, volume), t, volume) == WithRow(WithRow(shown, t, volume), s, volume)
  {
  }

  lemma StatusIsShown(goods: map<Id, Goods>, id: Id, row: Goods)
    requires id in goods && row == goods[id].(status := row.status, slot := row.slot)
    ensures WithRow(Shown(goods[id := row], row.owner, row.warehouse), goods[id].status, row.volume)
         == WithRow(Shown(goods, row.owner, row.warehouse), row.status, row.volume)
  {
    RowIsShown(goods, id, row);
    RowIsShown(goods, id, goods[id]);
    assert goods[id := goods[id]] == goods;
    RowsCommute(Shown(goods - {id}, row.owner, row.warehouse), goods[id].status, row.status, row.volume);
  }

  lemma StatusWritesOneRow(st: State, call: Call)
    requires call.request.DoUpdateStatus? && Apply(st, call).Accepted?
    ensures var id, after := call.request.id, After(st, call).goods;
      && id in st.goods && id in after && after == st.goods[id := after[id]]
      && after[id] == st.goods[id].(status := call.request.status, slot := after[id].slot)
  {
  }

  /** An accepted status change takes the goods' volume out of the figure of their old status and adds it
      to that of their new one: a put-away moves it from receiving to stored, a delivery takes it away. */
  lemma StatusChangeIsShown(st: State, call: Call)
    requires call.request.DoUpdateStatus? && Apply(st, call).Accepted?
    ensures call.request.id in st.goods
    ensures var g := st.goods[call.request.id];
      WithRow(Shown(After(st, call).goods, g.owner, g.warehouse), g.status, g.volume)
      == WithRow(Shown(st.goods, g.owner, g.warehouse), call.request.status, g.volume)
  {
    StatusWritesOneRow(st, call);
    StatusIsShown(st.goods, call.request.id, After(st, call).goods[call.request.id]);
  }

  // ---- the rented space is not overfilled ----

  /** No invoice is stored as CANCELLED: nothing sets that status. */
  ghost predicate NoneCancelled(invoices: map<Id, Invoice>) {
    forall i :: i in invoices ==> !invoices[i].status.Cancelled?
  }

  ghost predicate Bounded(st: State, c: Id, w: Id) {
    WithinRental(st.goods, st.invoices, c, w, 0, 0)
  }

  ghost function OccupiedSpace(st: State, c: Id, w: Id, measure: Goods -> int): int {
    Measure(st.goods, OccupiedBy(c, w), measure)
  }

  /** Nothing is registered, and the customer's rentals and goods stay where they are. */
  predicate Elsewhere(call: Call, c: Id) {
    && !call.request.DoRegister?
    && !(call.request.DoChangeWarehouse? && call.actor.id == c)
    && !(call.request.DoDeleteUser? && call.request.id == c)
  }

  /** No good of this customer here starts to occupy space. */
  ghost predicate NothingReturns(st: State, call: Call, c: Id, w: Id) {
    call.request.DoReceive? && call.request.id in st.orders ==>
      forall g :: g in st.orders[call.request.id].items && g in st.goods ==>
        st.goods[g].owner != c || st.goods[g].warehouse != w || !st.goods[g].status.Delivered?
  }

  /** No good of this customer in this warehouse occupies space that did not before. */
  ghost predicate NoneOccupyAnew(goods: map<Id, Goods>, after: map<Id, Goods>, c: Id, w: Id) {
    forall g :: g in after && OccupiedBy(c, w)(after[g]) ==>
      g in goods && OccupiedBy(c, w)(goods[g]) && after[g].volume == goods[g].volume &&
        after[g].weight == goods[g].weight
  }

  lemma OccupiedShrinks(goods: map<Id, Goods>, after: map<Id, Goods>, c: Id, w: Id)
    requires NoneOccupyAnew(goods, after, c, w)
    ensures Measure(after, OccupiedBy(c, w), VolumeOf) <= Measure(goods, OccupiedBy(c, w), VolumeOf)
    ensures Measure(after, OccupiedBy(c, w), WeightOf) <= Measure(goods, OccupiedBy(c, w), WeightOf)
  {
    MeasureMonotone(goods, after, OccupiedBy(c, w), VolumeOf);
    MeasureMonotone(goods, after, OccupiedBy(c, w), WeightOf);
  }

  lemma PutAwayOccupiesNothing(st: State, id: Id, s: Id, c: Id, w: Id)
    requires id in st.goods && Occupying(st.goods[id].status)
    ensures NoneOccupyAnew(st.goods, PutAway(st, id, s).goods, c, w)
  {
  }

  lemma LeaveOccupiesNothing(st: State, id: Id, t: GoodsStatus, c: Id, w: Id)
    requires id in st.goods && GoodsMay(st.goods[id].status, t)
    ensures NoneOccupyAnew(st.goods, Leave(st, id, t).goods, c, w)
  {
  }

  lemma StatusOccupiesNothing(st: State, call: Call, c: Id, w: Id)
    requires call.request.DoUpdateStatus?
    ensures NoneOccupyAnew(st.goods, After(st, call).goods, c, w)
  {
    var r := call.request;
    if MayUpdateStatus(st, r.id, r.status, r.slot, call.actor) {
      if r.status.Stored? {
        PutAwayOccupiesNothing(st, r.id, PutTarget(st, r.id, r.slot).value, c, w);
      } else {
        LeaveOccupiesNothing(st, r.id, r.status, c, w);
      }
    }
  }

  lemma GoodsStepsOccupyNothing(st: State, call: Call, c: Id, w: Id)
    requires call.request.DoUpdateStatus? || call.request.DoTransferSlot? || call.request.DoReconcile?
    ensures NoneOccupyAnew(st.goods, After(st, call).goods, c, w)
  {
    match call.request
    case DoUpdateStatus(_, _, _) => StatusOccupiesNothing(st, call, c, w);
    case DoTransferSlot(id, target) =>
      if MayTransfer(st, id, target, call.actor) { TransferOccupiesNothing(st, id, target, c, w); }
    case DoReconcile =>
  }

  lemma TransferOccupiesNothing(st: State, id: Id, target: Id, c: Id, w: Id)
    requires id in st.goods
    ensures NoneOccupyAnew(st.goods, Transferred(st, id, target).goods, c, w)
  {
  }

  lemma OrderStepsOccupyNothing(st: State, call: Call, c: Id, w: Id)
    requires call.request.DoCreateOrder? || call.request.DoUpdateOrder? || call.request.DoReceive? ||
        call.request.DoSubmitPod?
    requires NothingReturns(st, call, c, w)
    ensures NoneOccupyAnew(st.goods, After(st, call).goods, c, w)
  {
    match call.request
    case DoCreateOrder(id, req) => CreatingOccupiesNothing(st, id, req, OnBehalf(call.actor, req.customer), c, w);
    case DoUpdateOrder(id, t, v, d) =>
      if id in st.orders { UpdatingOccupiesNothing(st, id, t, v, d, c, w); }
    case DoReceive(id, _) =>
    case DoSubmitPod(id) =>
  }

  lemma CreatingOccupiesNothing(st: State, id: Id, req: OrderRequest, owner: Id, c: Id, w: Id)
    ensures NoneOccupyAnew(st.goods, Created(st, id, req, owner).goods, c, w)
  {
  }

  lemma UpdatingOccupiesNothing(st: State, id: Id, t: OrderStatus, v: Field, d: Field, c: Id, w: Id)
    requires id in st.orders
    ensures NoneOccupyAnew(st.goods, OrderUpdated(st, id, t, v, d).goods, c, w)
  {
    SyncingOccupiesNothing(st.goods, st.orders[id], t, c, w);
  }

  lemma SyncingOccupiesNothing(goods: map<Id, Goods>, o: Order, t: OrderStatus, c: Id, w: Id)
    ensures NoneOccupyAnew(goods, SyncedGoods(goods, o, t), c, w)
  {
    forall s: GoodsStatus ensures Occupying(Synced(t, s)) ==> Occupying(s) { }
  }

  ghost predicate RentalsSame(invoices: map<Id, Invoice>, after: map<Id, Invoice>, c: Id, w: Id) {
    Volumes(Rentals(after, c, w)) == Volumes(Rentals(invoices, c, w))
  }

  lemma ChangedElsewhere(st: State, other: Id, source: Id, target: Id, c: Id, w: Id)
    requires other != c
    ensures NoneOccupyAnew(st.goods, Changed(st, other, source, target).goods, c, w)
    ensures RentalsSame(st.invoices, Changed(st, other, source, target).invoices, c, w)
  {
  }

  lemma DeletedElsewhere(st: State, other: Id, c: Id, w: Id)
    requires other != c
    ensures NoneOccupyAnew(st.goods, Deleted(st, other).goods, c, w)
    ensures RentalsSame(st.invoices, Deleted(st, other).invoices, c, w)
  {
  }

  lemma SettlingKeepsRentals(invoices: map<Id, Invoice>, i: Id, inv: Invoice, c: Id, w: Id)
    requires i in invoices && !inv.status.Cancelled? && !invoices[i].status.Cancelled?
    requires inv.customer == invoices[i].customer && inv.warehouse == invoices[i].warehouse
    requires inv.volume == invoices[i].volume
    ensures RentalsSame(invoices, invoices[i := inv], c, w)
  {
  }

  /** A new rental adds its volume to what its customer rents there. */
  lemma RentingAdds(invoices: map<Id, Invoice>, i: Id, inv: Invoice, c: Id, w: Id)
    requires i !in invoices && !inv.status.Cancelled?
    ensures Rented(invoices[i := inv], c, w)
         == Rented(invoices, c, w) + if inv.customer == c && inv.warehouse == w then inv.volume else 0
  {
    var before, after := Volumes(Rentals(invoices, c, w)), Volumes(Rentals(invoices[i := inv], c, w));
    RentalAdded(invoices, i, inv, c, w);
    if inv.customer == c && inv.warehouse == w {
      Put(before, i, inv.volume);
    }
  }

  lemma RentalAdded(invoices: map<Id, Invoice>, i: Id, inv: Invoice, c: Id, w: Id)
    requires i !in invoices && !inv.status.Cancelled?
    ensures var before := Volumes(Rentals(invoices, c, w));
      Volumes(Rentals(invoices[i := inv], c, w))
      == if inv.customer == c && inv.warehouse == w then before[i := inv.volume] else before
  {
  }

  lemma BillingKeepsRentals(st: State, call: Call, c: Id, w: Id)
    requires (call.request.DoPay? || call.request.DoVerify?) && NoneCancelled(st.invoices)
    ensures After(st, call).goods == st.goods
    ensures RentalsSame(st.invoices, After(st, call).invoices, c, w)
  {
    if call.request.DoPay? {
      PayKeepsRentals(st, call, c, w);
    } else {
      VerdictKeepsRentals(st, call, c, w);
    }
  }

  lemma PayKeepsRentals(st: State, call: Call, c: Id, w: Id)
    requires call.request.DoPay? && NoneCancelled(st.invoices)
    ensures After(st, call).goods == st.goods
    ensures RentalsSame(st.invoices, After(st, call).invoices, c, w)
  {
    var id := call.request.id;
    if MayPay(st, id, call.request.amount, call.actor, call.now) {
      SettlingKeepsRentals(st.invoices, id, Awaiting(st.invoices[id], ChargeAt(st.invoices[id], call.now)), c, w);
    }
  }

  lemma VerdictKeepsRentals(st: State, call: Call, c: Id, w: Id)
    requires call.request.DoVerify? && NoneCancelled(st.invoices)
    ensures After(st, call).goods == st.goods
    ensures RentalsSame(st.invoices, After(st, call).invoices, c, w)
  {
    var id := call.request.id;
    if id in st.invoices {
      SettlingKeepsRentals(st.invoices, id, Judged(st.invoices[id], call.request.verdict, call.now), c, w);
    }
  }

  lemma TenancyOccupiesNothing(st: State, call: Call, c: Id, w: Id)
    requires (call.request.DoChangeWarehouse? || call.request.DoDeleteUser?) && Elsewhere(call, c)
    ensures NoneOccupyAnew(st.goods, After(st, call).goods, c, w)
    ensures RentalsSame(st.invoices, After(st, call).invoices, c, w)
  {
    match call.request
    case DoChangeWarehouse(source, target) =>
      if MayChange(st, source, target, call.actor) { ChangedElsewhere(st, call.actor.id, source, target, c, w); }
    case DoDeleteUser(id) => DeletedElsewhere(st, id, c, w);
  }

  /** Away from this customer's registrations and rentals, what is rented stays as it is. */
  lemma ElsewhereKeepsRentals(st: State, call: Call, c: Id, w: Id)
    requires Elsewhere(call, c) && !call.request.DoRentSpace? && NoneCancelled(st.invoices)
    ensures Rented(After(st, call).invoices, c, w) == Rented(st.invoices, c, w)
  {
    var r := call.request;
    if r.DoUpdateStatus? || r.DoTransferSlot? || r.DoReconcile? {
      GoodsStepsKeepInvoices(st, call);
    } else if r.DoCreateOrder? || r.DoUpdateOrder? || r.DoReceive? || r.DoSubmitPod? {
      OrderStepsKeepInvoices(st, call);
    } else if r.DoPay? || r.DoVerify? {
      BillingKeepsRentals(st, call, c, w);
    } else {
      TenancyOccupiesNothing(st, call, c, w);
    }
  }

  /** And unless delivered goods come back, no more space is occupied. */
  lemma ElsewhereOccupiesNothing(st: State, call: Call, c: Id, w: Id)
    requires Elsewhere(call, c) && NothingReturns(st, call, c, w) && NoneCancelled(st.invoices)
    ensures OccupiedSpace(After(st, call), c, w, VolumeOf) <= OccupiedSpace(st, c, w, VolumeOf)
    ensures OccupiedSpace(After(st, call), c, w, WeightOf) <= OccupiedSpace(st, c, w, WeightOf)
  {
    var r := call.request;
    if r.DoUpdateStatus? || r.DoTransferSlot? || r.DoReconcile? {
      GoodsStepsOccupyNothing(st, call, c, w);
    } else if r.DoCreateOrder? || r.DoUpdateOrder? || r.DoReceive? || r.DoSubmitPod? {
      OrderStepsOccupyNothing(st, call, c, w);
    } else if r.DoPay? || r.DoVerify? {
      BillingKeepsRentals(st, call, c, w);
    } else if r.DoRentSpace? {
      assert After(st, call).goods == st.goods;
    } else {
      TenancyOccupiesNothing(st, call, c, w);
    }
    OccupiedShrinks(st.goods, After(st, call).goods, c, w);
  }

  /** Rentals are only ever added. */
  lemma ElsewhereOnlyRentsMore(st: State, call: Call, c: Id, w: Id)
    requires Elsewhere(call, c) && NoneCancelled(st.invoices)
    ensures Rented(st.invoices, c, w) <= Rented(After(st, call).invoices, c, w)
  {
    if call.request.DoRentSpace? {
      if Apply(st, call).Accepted? {
        var inv := NewInvoice(call.request.rent, call.actor.id, call.request.start);
        RentingAdds(st.invoices, call.request.id, inv, c, w);
      }
    } else {
      ElsewhereKeepsRentals(st, call, c, w);
    }
  }

  // ---- the exact condition for single requests ----

  function ReturningHere(c: Id, w: Id): Goods -> bool {
    (g: Goods) => g.owner == c && g.warehouse == w && g.status.Delivered?
  }

  ghost function Own(goods: map<Id, Goods>, items: map<Id, nat>): map<Id, Goods> {
    map g | g in goods && g in items :: goods[g]
  }

  /** Receiving makes delivered goods occupy space again. */
  lemma ReceivingReturns(goods: map<Id, Goods>, items: map<Id, nat>, c: Id, w: Id, measure: Goods -> int)
    requires forall g :: g in items && g in goods ==> !goods[g].status.Cancelled?
    requires forall g: Goods, s :: measure(g.(status := s)) == measure(g)
    ensures Measure(Inspected(goods, items), OccupiedBy(c, w), measure)
         == Measure(goods, OccupiedBy(c, w), measure) + Measure(Own(goods, items), ReturningHere(c, w), measure)
  {
    var before, after := Rows(goods, OccupiedBy(c, w), measure),
      Rows(Inspected(goods, items), OccupiedBy(c, w), measure);
    var back := Rows(Own(goods, items), ReturningHere(c, w), measure);
    forall g | g in before.Keys + back.Keys + after.Keys ensures At(after, g) == At(before, g) + At(back, g) {
      assert g in goods;
    }
    Add(before, back, after);
  }

  /** A request overfills the rented space only by bringing back delivered goods that no longer fit,
      by a first rental smaller than what the legacy allocation let in, or by moving the rental away
      from goods or to a warehouse where they do not fit. */
  ghost predicate RentalGuard(st: State, call: Call, c: Id, w: Id) {
    match call.request
    case DoReceive(id, counted) =>
      MayReceive(st, id, counted, call.actor) ==>
        WithinRental(st.goods, st.invoices, c, w,
                     Measure(Own(st.goods, st.orders[id].items), ReturningHere(c, w), VolumeOf),
                     Measure(Own(st.goods, st.orders[id].items), ReturningHere(c, w), WeightOf))
    case DoRentSpace(id, dto, _) =>
      RentSpace(st, id, dto, call.actor, 0).Accepted? && call.actor.id == c && dto.warehouse == w &&
        Rented(st.invoices, c, w) == 0 ==>
        OccupiedSpace(st, c, w, VolumeOf) <= dto.volume + 1 && OccupiedSpace(st, c, w, WeightOf) <= dto.volume + 1
    case DoChangeWarehouse(source, target) =>
      MayChange(st, source, target, call.actor) && call.actor.id == c ==> ChangeFits(st, c, source, target, w)
    case _ => true
  }

  // ---- changing the rented warehouse ----

  /** Goods that move with the rental: those not picked up yet. */
  function Movable(c: Id, source: Id): Goods -> bool {
    (g: Goods) => g.owner == c && g.warehouse == source && (g.status.Draft? || g.status.PendingPickup?)
  }

  /** The target has to hold what moves along, and the source what is on its way there already, with
      nothing but the legacy allotment left to it. */
  ghost predicate ChangeFits(st: State, c: Id, source: Id, target: Id, w: Id) {
    var volume := Measure(st.goods, Movable(c, source), VolumeOf);
    var weight := Measure(st.goods, Movable(c, source), WeightOf);
    var allotment := Allotment(Rented(st.invoices, c, source) + Rented(st.invoices, c, target));
    && (w == target ==>
          && OccupiedSpace(st, c, target, VolumeOf) + volume <= allotment + 1
          && OccupiedSpace(st, c, target, WeightOf) + weight <= allotment + 1)
    && (w == source ==>
          && OccupiedSpace(st, c, source, VolumeOf) - volume <= LEGACY_ALLOTMENT + 1
          && OccupiedSpace(st, c, source, WeightOf) - weight <= LEGACY_ALLOTMENT + 1)
  }

  /** The goods that change are those that move, and they change only their warehouse. */
  lemma GoodsArrive(goods: map<Id, Goods>, c: Id, source: Id, target: Id, measure: Goods -> int)
    requires source != target && forall g: Goods, w :: measure(g.(warehouse := w)) == measure(g)
    ensures Measure(Relocated(goods, c, source, target), OccupiedBy(c, target), measure)
         == Measure(goods, OccupiedBy(c, target), measure) + Measure(goods, Movable(c, source), measure)
  {
    var after := Relocated(goods, c, source, target);
    var moved := Rows(goods, Movable(c, source), measure);
    var t, t' := Rows(goods, OccupiedBy(c, target), measure), Rows(after, OccupiedBy(c, target), measure);
    forall g | g in t.Keys + moved.Keys + t'.Keys ensures At(t', g) == At(t, g) + At(moved, g) {
      assert g in goods && (g in moved ==> after[g] == goods[g].(warehouse := target));
    }
    Add(t, moved, t');
  }

  lemma GoodsDepart(goods: map<Id, Goods>, c: Id, source: Id, target: Id, measure: Goods -> int)
    requires source != target
    ensures Measure(Relocated(goods, c, source, target), OccupiedBy(c, source), measure)
         == Measure(goods, OccupiedBy(c, source), measure) - Measure(goods, Movable(c, source), measure)
  {
    var after := Relocated(goods, c, source, target);
    var moved := Rows(goods, Movable(c, source), measure);
    var s, s' := Rows(goods, OccupiedBy(c, source), measure), Rows(after, OccupiedBy(c, source), measure);
    forall g | g in s.Keys + moved.Keys + s'.Keys ensures At(s, g) == At(s', g) + At(moved, g) {
      assert g in goods && (g !in moved ==> after[g] == goods[g]);
    }
    Add(s', moved, s);
  }

  lemma RentalsArrive(invoices: map<Id, Invoice>, c: Id, source: Id, target: Id)
    requires source != target
    ensures Rented(Reassigned(invoices, c, source, target), c, target)
         == Rented(invoices, c, target) + Rented(invoices, c, source)
  {
    var after := Reassigned(invoices, c, source, target);
    var s, t := Volumes(Rentals(invoices, c, source)), Volumes(Rentals(invoices, c, target));
    var t' := Volumes(Rentals(after, c, target));
    forall i | i in s.Keys + t.Keys + t'.Keys ensures At(t', i) == At(t, i) + At(s, i) { assert i in invoices; }
    Add(t, s, t');
  }

  lemma RentalsDepart(invoices: map<Id, Invoice>, c: Id, source: Id, target: Id)
    requires source != target
    ensures Rented(Reassigned(invoices, c, source, target), c, source) == 0
  {
    assert Volumes(Rentals(Reassigned(invoices, c, source, target), c, source)) == map[];
  }

  lemma ChangeLeavesOthers(st: State, c: Id, source: Id, target: Id, w: Id)
    requires w != source && w != target
    ensures var after := Changed(st, c, source, target);
      && Rented(after.invoices, c, w) == Rented(st.invoices, c, w)
      && OccupiedSpace(after, c, w, VolumeOf) == OccupiedSpace(st, c, w, VolumeOf)
      && OccupiedSpace(after, c, w, WeightOf) == OccupiedSpace(st, c, w, WeightOf)
  {
    ChangeLeavesRentals(st.invoices, c, source, target, w);
    var after := Relocated(st.goods, c, source, target);
    MeasureSame(st.goods, after, OccupiedBy(c, w), VolumeOf);
    MeasureSame(st.goods, after, OccupiedBy(c, w), WeightOf);
  }

  lemma ChangeLeavesRentals(invoices: map<Id, Invoice>, c: Id, source: Id, target: Id, w: Id)
    requires w != source && w != target
    ensures Rented(Reassigned(invoices, c, source, target), c, w) == Rented(invoices, c, w)
  {
    assert Volumes(Rentals(Reassigned(invoices, c, source, target), c, w)) == Volumes(Rentals(invoices, c, w));
  }

  lemma ChangeAndBound(st: State, c: Id, source: Id, target: Id, w: Id)
    requires Bounded(st, c, w) && source != target
    ensures Bounded(Changed(st, c, source, target), c, w) <==> ChangeFits(st, c, source, target, w)
  {
    if w == target {
      ChangeAndTarget(st, c, source, target);
    } else if w == source {
      ChangeAndSource(st, c, source, target);
    } else {
      ChangeLeavesOthers(st, c, source, target, w);
    }
  }

  lemma ChangeAndTarget(st: State, c: Id, source: Id, target: Id)
    requires source != target
    ensures Bounded(Changed(st, c, source, target), c, target) <==> ChangeFits(st, c, source, target, target)
  {
    GoodsArrive(st.goods, c, source, target, VolumeOf);
    GoodsArrive(st.goods, c, source, target, WeightOf);
    RentalsArrive(st.invoices, c, source, target);
  }

  lemma ChangeAndSource(st: State, c: Id, source: Id, target: Id)
    requires source != target
    ensures Bounded(Changed(st, c, source, target), c, source) <==> ChangeFits(st, c, source, target, source)
  {
    GoodsDepart(st.goods, c, source, target, VolumeOf);
    GoodsDepart(st.goods, c, source, target, WeightOf);
    RentalsDepart(st.invoices, c, source, target);
  }

  lemma DeletedIsBounded(st: State, c: Id, w: Id)
    ensures Bounded(Deleted(st, c), c, w)
  {
    var after := Deleted(st, c);
    assert Rows(after.goods, OccupiedBy(c, w), VolumeOf) == map[];
    assert Rows(after.goods, OccupiedBy(c, w), WeightOf) == map[];
    assert Volumes(Rentals(after.invoices, c, w)) == map[];
  }

  lemma ChangeStepAndBound(st: State, call: Call, c: Id, w: Id)
    requires Bounded(st, c, w) && NoneCancelled(st.invoices) && call.request.DoChangeWarehouse?
    ensures Bounded(After(st, call), c, w) <==> RentalGuard(st, call, c, w)
  {
    var source, target := call.request.source, call.request.target;
    if call.actor.id == c {
      if MayChange(st, source, target, call.actor) { ChangeAndBound(st, c, source, target, w); }
    } else {
      ElsewhereKeepsRentals(st, call, c, w);
      ElsewhereOccupiesNothing(st, call, c, w);
    }
  }

  lemma DeleteStepAndBound(st: State, call: Call, c: Id, w: Id)
    requires Bounded(st, c, w) && NoneCancelled(st.invoices) && call.request.DoDeleteUser?
    ensures Bounded(After(st, call), c, w)
  {
    if call.request.id == c {
      OwnDeletionIsBounded(st, call, c, w);
    } else {
      ElsewhereKeepsRentals(st, call, c, w);
      ElsewhereOccupiesNothing(st, call, c, w);
    }
  }

  lemma OwnDeletionIsBounded(st: State, call: Call, c: Id, w: Id)
    requires Bounded(st, c, w) && call.request.DoDeleteUser? && call.request.id == c
    ensures Bounded(After(st, call), c, w)
  {
    if Apply(st, call).Accepted? { DeletedIsBounded(st, c, w); }
  }

  lemma RegisterKeepsBound(st: State, id: Id, dto: GoodsDto, actor: Actor, now: int, c: Id, w: Id)
    requires Bounded(st, c, w) && MayRegister(st, id, dto, actor, now)
    ensures Bounded(Register(st, id, dto, actor, now).value, c, w)
  {
    var row := dto.Row(OnBehalf(actor, dto.customer));
    ReplaceRow(st.goods, id, row, OccupiedBy(c, w), VolumeOf);
    ReplaceRow(st.goods, id, row, OccupiedBy(c, w), WeightOf);
    assert st.goods - {id} == st.goods;
  }

  lemma RentAndBound(st: State, call: Call, c: Id, w: Id)
    requires Bounded(st, c, w) && call.request.DoRentSpace? && NoneCancelled(st.invoices)
    ensures Bounded(After(st, call), c, w) <==> RentalGuard(st, call, c, w)
  {
    if Apply(st, call).Accepted? {
      RentedAndBound(st, call.request.id, NewInvoice(call.request.rent, call.actor.id, call.request.start), c, w);
    }
  }

  lemma RentedAndBound(st: State, id: Id, inv: Invoice, c: Id, w: Id)
    requires Bounded(st, c, w) && id !in st.invoices && !inv.status.Cancelled? && 0 < inv.volume
    ensures Bounded(st.(invoices := st.invoices[id := inv]), c, w)
       <==> (inv.customer == c && inv.warehouse == w && Rented(st.invoices, c, w) == 0 ==>
               OccupiedSpace(st, c, w, VolumeOf) <= inv.volume + 1 &&
                 OccupiedSpace(st, c, w, WeightOf) <= inv.volume + 1)
  {
    NonNegative(Volumes(Rentals(st.invoices, c, w)));
    RentingAdds(st.invoices, id, inv, c, w);
  }

  lemma ReceiveAndBound(st: State, id: Id, counted: nat, actor: Actor, c: Id, w: Id)
    requires Bounded(st, c, w) && MayReceive(st, id, counted, actor)
    ensures Bounded(Received(st, id), c, w) <==> RentalGuard(st, Call(DoReceive(id, counted), actor, 0), c, w)
  {
    ReceivingReturns(st.goods, st.orders[id].items, c, w, VolumeOf);
    ReceivingReturns(st.goods, st.orders[id].items, c, w, WeightOf);
  }

  /** Every request keeps a customer within the rented space exactly under its guard. */
  lemma StepAndBound(st: State, call: Call, c: Id, w: Id)
    requires Bounded(st, c, w) && NoneCancelled(st.invoices)
    ensures Bounded(After(st, call), c, w) <==> RentalGuard(st, call, c, w)
  {
    match call.request
    case DoRegister(id, dto) =>
      if MayRegister(st, id, dto, call.actor, call.now) { RegisterKeepsBound(st, id, dto, call.actor, call.now, c, w); }
    case DoRentSpace(_, _, _) => RentAndBound(st, call, c, w);
    case DoReceive(id, counted) =>
      if MayReceive(st, id, counted, call.actor) { ReceiveAndBound(st, id, counted, call.actor, c, w); }
    case DoChangeWarehouse(_, _) => ChangeStepAndBound(st, call, c, w);
    case DoDeleteUser(_) => DeleteStepAndBound(st, call, c, w);
    case _ =>
      ElsewhereKeepsRentals(st, call, c, w);
      ElsewhereOccupiesNothing(st, call, c, w);
  }

  lemma StepKeepsNoneCancelled(st: State, call: Call)
    requires NoneCancelled(st.invoices)
    ensures NoneCancelled(After(st, call).invoices)
  {
    if !IsBilling(call.request) {
      OthersKeepInvoices(st, call);
    } else if call.request.DoVerify? {
      VerdictKeepsNoneCancelled(st, call);
    }
  }

  lemma VerdictKeepsNoneCancelled(st: State, call: Call)
    requires NoneCancelled(st.invoices) && call.request.DoVerify?
    ensures NoneCancelled(After(st, call).invoices)
  {
  }

  ghost predicate BoundedThroughout(st: State, calls: seq<Call>, c: Id, w: Id)
    decreases |calls|
  {
    Bounded(st, c, w) && (calls == [] || BoundedThroughout(After(st, calls[0]), calls[1..], c, w))
  }

  ghost predicate RentalsGuarded(st: State, calls: seq<Call>, c: Id, w: Id)
    decreases |calls|
  {
    calls == [] || (RentalGuard(st, calls[0], c, w) && RentalsGuarded(After(st, calls[0]), calls[1..], c, w))
  }

  /** Over any run the tolerance of 0.0001 m3 and 0.01 kg is never exceeded, however many registrations
      were each checked with it, exactly when every request meets its guard. */
  lemma {:induction false} RentedSpaceIsNotOverfilled(st: State, calls: seq<Call>, c: Id, w: Id)
    requires Bounded(st, c, w) && NoneCancelled(st.invoices)
    ensures BoundedThroughout(st, calls, c, w) <==> RentalsGuarded(st, calls, c, w)
    ensures RentalsGuarded(st, calls, c, w) ==> Bounded(Run(st, calls), c, w)
    decreases |calls|
  {
    if calls != [] {
      StepAndBound(st, calls[0], c, w);
      StepKeepsNoneCancelled(st, calls[0]);
      if RentalGuard(st, calls[0], c, w) {
        RentedSpaceIsNotOverfilled(After(st, calls[0]), calls[1..], c, w);
      }
    }
  }
}
