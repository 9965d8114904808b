/** Reservations, cargo totals and the confirmation of inbound orders. */
module OrderTheorems {
  import opened Domain
  import opened Sums
  import opened Inventory
  import opened Dispatch
  import opened Tenancy
  import opened System

  // ---- what an order keeps for life ----

  /** Everything a good keeps for life. */
  function Nature(g: Goods): Goods {
    g.(warehouse := 0, slot := None, status := Draft)
  }

  /** Orders carry existing goods of their own customer. */
  ghost predicate Linked(st: State) {
    forall o, g :: o in st.orders && g in st.orders[o].items ==>
      g in st.goods && st.goods[g].owner == st.orders[o].customer
  }

  /** The packages claimed exist, and the totals are those packages' rounded shares. */
  ghost predicate OrderSound(goods: map<Id, Goods>, o: Order) {
    && o.items != map[] && o.items.Keys <= goods.Keys
    && (forall g :: g in o.items ==> 1 <= o.items[g] <= goods[g].quantity)
    && o.volume == Rounded(VolumeShares(goods, o.items))
    && o.weight == Rounded(WeightShares(goods, o.items))
    && o.reefer == AnyCold(goods, o.items)
  }

  ghost predicate Sound(st: State) {
    Linked(st) && forall o :: o in st.orders ==> OrderSound(st.goods, st.orders[o])
  }

  predicate SameCargo(a: Order, b: Order) {
    b == a.(driver := b.driver, vehicle := b.vehicle, status := b.status)
  }

  /** No order appears, none becomes active again, and none loses a good it carries. */
  ghost predicate OrdersFollow(orders: map<Id, Order>, after: map<Id, Order>, goods: map<Id, Goods>) {
    forall o :: o in after ==>
      && o in orders && SameCargo(orders[o], after[o])
      && (Reserving(after[o].status) ==> Reserving(orders[o].status))
      && orders[o].items.Keys <= goods.Keys
  }

  ghost predicate NatureKept(goods: map<Id, Goods>, after: map<Id, Goods>) {
    forall g :: g in goods && g in after ==> Nature(after[g]) == Nature(goods[g])
  }

  ghost predicate Follows(st: State, after: State) {
    OrdersFollow(st.orders, after.orders, after.goods) && NatureKept(st.goods, after.goods)
  }

  lemma SameNatureSameOrder(goods: map<Id, Goods>, after: map<Id, Goods>, a: Order, b: Order)
    requires OrderSound(goods, a) && SameCargo(a, b) && a.items.Keys <= after.Keys
    requires forall g :: g in a.items ==> Nature(after[g]) == Nature(goods[g])
    ensures OrderSound(after, b)
  {
    assert VolumeShares(after, a.items) == VolumeShares(goods, a.items);
    assert WeightShares(after, a.items) == WeightShares(goods, a.items);
    forall g | g in a.items ensures after[g].Cold() == goods[g].Cold() {
      assert Nature(after[g]).Cold() == Nature(goods[g]).Cold();
    }
  }

  lemma FollowsKeepsSound(st: State, after: State)
    requires Sound(st) && Follows(st, after)
    ensures Sound(after)
  {
    forall o | o in after.orders ensures OrderSound(after.goods, after.orders[o]) {
      SameNatureSameOrder(st.goods, after.goods, st.orders[o], after.orders[o]);
    }
  }

  // ---- each request follows ----

  lemma MovedFollows(st: State, id: Id, row: Goods, touched: set<Id>)
    requires Linked(st) && id in st.goods && Nature(row) == Nature(st.goods[id])
    ensures Follows(st, Moved(st, id, row, touched))
  {
  }

  lemma PutAwayFollows(st: State, id: Id, s: Id)
    requires Linked(st) && id in st.goods
    ensures Follows(st, PutAway(st, id, s))
  {
    var g := st.goods[id];
    MovedFollows(st, id, g.(status := GoodsStatus.Stored, slot := Some(s)), {s} + SlotSet(g.slot));
  }

  lemma LeaveFollows(st: State, id: Id, status: GoodsStatus)
    requires Linked(st) && id in st.goods
    ensures Follows(st, Leave(st, id, status))
  {
    var g := st.goods[id];
    MovedFollows(st, id, g.(status := status, slot := if Occupying(status) then g.slot else None), SlotSet(g.slot));
  }

  lemma OrderUpdatedFollows(st: State, id: Id, t: OrderStatus, v: Field, d: Field)
    requires Linked(st) && id in st.orders && OrderMay(st.orders[id].status, t)
    ensures Follows(st, OrderUpdated(st, id, t, v, d))
  {
  }

  lemma ReceivedFollows(st: State, id: Id)
    requires Linked(st) && id in st.orders
    ensures Follows(st, Received(st, id))
  {
  }

  lemma ChangedFollows(st: State, c: Id, source: Id, target: Id)
    requires Linked(st)
    ensures Follows(st, Changed(st, c, source, target))
  {
  }

  lemma DeletedFollows(st: State, c: Id)
    requires Linked(st)
    ensures Follows(st, Deleted(st, c))
  {
    var after := Deleted(st, c);
    var gone := OwnedBy(st.goods, c);
    forall o | o in after.orders
      ensures SameCargo(st.orders[o], after.orders[o]) && st.orders[o].items.Keys <= after.goods.Keys
    {
      OwnItemsStay(st, c, o);
    }
  }

  /** Another customer's order carries none of the deleted goods. */
  lemma OwnItemsStay(st: State, c: Id, o: Id)
    requires Linked(st) && o in st.orders && st.orders[o].customer != c
    ensures st.orders[o].items - OwnedBy(st.goods, c) == st.orders[o].items
    ensures st.orders[o].items.Keys <= (st.goods - OwnedBy(st.goods, c)).Keys
  {
  }

  lemma GoodsStepFollows(st: State, c: Call)
    requires Linked(st) && Apply(st, c).Accepted?
    requires c.request.DoUpdateStatus? || c.request.DoTransferSlot?
    ensures Follows(st, After(st, c))
  {
    match c.request
    case DoUpdateStatus(id, status, slot) =>
      if status.Stored? {
        PutAwayFollows(st, id, PutTarget(st, id, slot).value);
      } else {
        LeaveFollows(st, id, status);
      }
    case DoTransferSlot(id, target) =>
      MovedFollows(st, id, st.goods[id].(slot := Some(target)), {target} + SlotSet(st.goods[id].slot));
  }

  lemma OrderStepFollows(st: State, c: Call)
    requires Linked(st) && Apply(st, c).Accepted?
    requires c.request.DoUpdateOrder? || c.request.DoReceive? || c.request.DoSubmitPod?
    ensures Follows(st, After(st, c))
  {
    match c.request
    case DoUpdateOrder(id, t, v, d) => OrderUpdatedFollows(st, id, t, v, d);
    case DoReceive(id, _) => ReceivedFollows(st, id);
    case DoSubmitPod(id) => FinishedFollows(st, id);
  }

  lemma TenantStepFollows(st: State, c: Call)
    requires Linked(st) && Apply(st, c).Accepted?
    requires c.request.DoChangeWarehouse? || c.request.DoDeleteUser?
    ensures Follows(st, After(st, c))
  {
    match c.request
    case DoChangeWarehouse(source, target) => ChangedFollows(st, c.actor.id, source, target);
    case DoDeleteUser(id) => DeletedFollows(st, id);
  }

  lemma OtherStepFollows(st: State, c: Call)
    requires Linked(st) && Apply(st, c).Accepted?
    requires c.request.DoReconcile? || c.request.DoRentSpace? || c.request.DoPay? || c.request.DoVerify? ||
        c.request.DoRegister?
    ensures Follows(st, After(st, c))
  {
    SameOrdersFollow(st, After(st, c));
  }

  /** Every request but the creation of an order. */
  lemma StepFollows(st: State, c: Call)
    requires Linked(st) && !c.request.DoCreateOrder?
    ensures Follows(st, After(st, c))
  {
    if Apply(st, c).Refused? {
      SameOrdersFollow(st, st);
    } else if c.request.DoUpdateStatus? || c.request.DoTransferSlot? {
      GoodsStepFollows(st, c);
    } else if c.request.DoUpdateOrder? || c.request.DoReceive? || c.request.DoSubmitPod? {
      OrderStepFollows(st, c);
    } else if c.request.DoChangeWarehouse? || c.request.DoDeleteUser? {
      TenantStepFollows(st, c);
    } else {
      OtherStepFollows(st, c);
    }
  }

  lemma SameOrdersFollow(st: State, after: State)
    requires Linked(st) && after.orders == st.orders
    requires forall g :: g in st.goods ==> g in after.goods && after.goods[g] == st.goods[g]
    ensures Follows(st, after)
  {
  }

  lemma FinishedFollows(st: State, id: Id)
    requires Linked(st) && id in st.orders
    ensures Follows(st, Finished(st, id))
  {
  }

  lemma CreatedIsSound(st: State, req: OrderRequest, c: Id)
    requires GoodsAccepted(st, req, c)
    ensures OrderSound(st.goods, NewOrder(st, req, c))
  {
    WantedSomething(req, st.goods);
    AcceptedQuantities(st, req, c);
  }

  lemma ReservedNonNegative(orders: map<Id, Order>, g: Id, kind: OrderType)
    ensures 0 <= ReservedQuantity(orders, g, kind)
  {
    NonNegative(Claims(orders, g, kind));
  }

  lemma AcceptedQuantities(st: State, req: OrderRequest, c: Id)
    requires GoodsAccepted(st, req, c)
    ensures forall g :: g in Wanted(req, st.goods) ==>
      g in st.goods && st.goods[g].owner == c && 1 <= Wanted(req, st.goods)[g] <= st.goods[g].quantity
  {
    WantedSomething(req, st.goods);
    forall g | g in Wanted(req, st.goods) ensures 1 <= Wanted(req, st.goods)[g] {
      ReservedNonNegative(st.orders, g, req.kind);
      assert Claimable(st.orders, req.kind, g, st.goods[g].quantity, Wanted(req, st.goods)[g]);
    }
  }

  lemma {:induction false} ListedSomething(items: seq<(Id, Count)>)
    requires items != []
    ensures LastQuantities(items) != map[]
    ensures forall g :: g in LastQuantities(items) ==> 1 <= LastQuantities(items)[g]
  {
    var last := items[|items| - 1];
    assert last.0 in LastQuantities(items);
    if |items| > 1 { ListedSomething(items[..|items| - 1]); }
  }

  lemma WantedSomething(req: OrderRequest, goods: map<Id, Goods>)
    requires Listed(req, goods)
    ensures Wanted(req, goods) != map[] && Wanted(req, goods).Keys <= goods.Keys
    ensures req.items != [] ==> forall g :: g in Wanted(req, goods) ==> 1 <= Wanted(req, goods)[g]
  {
    if req.items != [] {
      ListedSomething(req.items);
    } else {
      assert req.goodsIds[0] in Wanted(req, goods);
    }
  }

  lemma ScheduledNature(goods: map<Id, Goods>, kind: OrderType, items: map<Id, nat>)
    ensures NatureKept(goods, Scheduled(goods, kind, items)) && Scheduled(goods, kind, items).Keys == goods.Keys
  {
  }

  lemma CreatedIsLinked(st: State, id: Id, req: OrderRequest, c: Id)
    requires Linked(st) && GoodsAccepted(st, req, c)
    ensures Linked(Created(st, id, req, c))
  {
    AcceptedQuantities(st, req, c);
    ScheduledNature(st.goods, req.kind, Wanted(req, st.goods));
    var after := Created(st, id, req, c);
    forall g | g in st.goods ensures after.goods[g].owner == st.goods[g].owner {
      assert Nature(after.goods[g]) == Nature(st.goods[g]);
    }
  }

  lemma CreatedKeepsSound(st: State, id: Id, req: OrderRequest, c: Id)
    requires Sound(st) && GoodsAccepted(st, req, c)
    ensures Sound(Created(st, id, req, c))
  {
    var after := Created(st, id, req, c);
    CreatedIsLinked(st, id, req, c);
    CreatedIsSound(st, req, c);
    ScheduledNature(st.goods, req.kind, Wanted(req, st.goods));
    forall o | o in after.orders ensures OrderSound(after.goods, after.orders[o]) {
      SameNatureSameOrder(st.goods, after.goods, after.orders[o], after.orders[o]);
    }
  }

  lemma StepKeepsSound(st: State, c: Call)
    requires Sound(st)
    ensures Sound(After(st, c))
  {
    if c.request.DoCreateOrder? {
      if Apply(st, c).Accepted? {
        CreatedKeepsSound(st, c.request.id, c.request.order, OnBehalf(c.actor, c.request.order.customer));
      }
    } else {
      StepFollows(st, c);
      FollowsKeepsSound(st, After(st, c));
    }
  }
}
