/** No received inbound order is left waiting once all its goods are on the racks. */
module InboundTheorems {
  import opened Domain
  import opened Capacity
  import opened Inventory
  import opened Dispatch
  import opened Tenancy
  import opened System
  import opened RackTheorems
  import opened OrderTheorems

  /** A received inbound order still waiting has goods that are not stored yet. */
  ghost predicate Waiting(goods: map<Id, Goods>, o: Order) {
    o.kind.Pickup? && o.status.Delivered? ==> !AllStored(goods, o.items)
  }

  ghost predicate Settled(st: State) {
    forall o :: o in st.orders ==> Waiting(st.goods, st.orders[o])
  }

  /** An admin may mark an inbound order DELIVERED by a plain status update, which looks at no goods. */
  ghost predicate InboundGuard(st: State, c: Call) {
    match c.request
    case DoUpdateOrder(id, t, v, d) =>
      MayUpdateOrder(st, id, t, v, d, c.actor, c.now) && t.Delivered? && st.orders[id].kind.Pickup? ==>
        !AllStored(st.goods, st.orders[id].items)
    case _ => true
  }

  lemma PutAwaySettles(st: State, id: Id, s: Id)
    requires Settled(st) && id in st.goods
    ensures Settled(PutAway(st, id, s))
  {
    var after := PutAway(st, id, s);
    forall o | o in after.orders ensures Waiting(after.goods, after.orders[o]) {
      assert Waiting(st.goods, st.orders[o]);
      if id !in st.orders[o].items && AllStored(after.goods, st.orders[o].items) {
        assert AllStored(st.goods, st.orders[o].items);
      }
    }
  }

  /** Nothing becomes stored: whoever waited still waits. */
  lemma FewerStoredStillWait(st: State, after: State)
    requires Settled(st)
    requires forall g :: g in after.goods && after.goods[g].status.Stored? ==>
        g in st.goods && st.goods[g].status.Stored?
    requires forall o :: o in after.orders && after.orders[o].kind.Pickup? && after.orders[o].status.Delivered? ==>
      o in st.orders && st.orders[o].kind.Pickup? && st.orders[o].status.Delivered?
      && st.orders[o].items.Keys <= after.orders[o].items.Keys
    ensures Settled(after)
  {
    forall o | o in after.orders ensures Waiting(after.goods, after.orders[o]) {
      if after.orders[o].kind.Pickup? && after.orders[o].status.Delivered? {
        assert Waiting(st.goods, st.orders[o]);
        var g :| g in st.orders[o].items && !(g in st.goods && st.goods[g].status.Stored?);
        assert g in after.orders[o].items && !(g in after.goods && after.goods[g].status.Stored?);
      }
    }
  }

  lemma ReceivedSettles(st: State, id: Id)
    requires Settled(st) && id in st.orders && OrderSound(st.goods, st.orders[id])
    ensures Settled(Received(st, id))
  {
    var after := Received(st, id);
    forall o | o in after.orders ensures Waiting(after.goods, after.orders[o]) {
      assert Waiting(st.goods, st.orders[o]);
      if o == id {
        var g :| g in st.orders[id].items;
        assert after.goods[g].status.Inspecting?;
      } else if AllStored(after.goods, st.orders[o].items) {
        assert AllStored(st.goods, st.orders[o].items);
      }
    }
  }

  lemma UpdateAndSettled(st: State, id: Id, t: OrderStatus, v: Field, d: Field)
    requires Settled(st) && id in st.orders && OrderMay(st.orders[id].status, t)
    ensures Settled(OrderUpdated(st, id, t, v, d))
       <==> (t.Delivered? && st.orders[id].kind.Pickup? ==> !AllStored(st.goods, st.orders[id].items))
  {
    var after := OrderUpdated(st, id, t, v, d);
    OrderUpdatedIsQuiet(st, id, t, v, d);
    forall o | o in st.orders
      ensures AllStored(after.goods, st.orders[o].items) == AllStored(st.goods, st.orders[o].items)
    {
      SameStoredSameOrders(st.goods, after.goods, st.orders[o].items);
    }
    forall o | o in st.orders && o != id ensures Waiting(after.goods, after.orders[o]) {
      assert Waiting(st.goods, st.orders[o]);
    }
    if t.Delivered? && st.orders[id].kind.Pickup? && AllStored(st.goods, st.orders[id].items) {
      assert !Waiting(after.goods, after.orders[id]);
    } else {
      assert Waiting(after.goods, after.orders[id]);
    }
  }

  lemma SameStoredSameOrders(goods: map<Id, Goods>, after: map<Id, Goods>, items: map<Id, nat>)
    requires SameStored(goods, after)
    ensures AllStored(after, items) == AllStored(goods, items)
  {
  }

  lemma CreatedSettles(st: State, id: Id, req: OrderRequest, c: Id)
    requires Settled(st)
    ensures Settled(Created(st, id, req, c))
  {
    FewerStoredStillWait(st, Created(st, id, req, c));
  }

  lemma TransferredSettles(st: State, id: Id, target: Id)
    requires Settled(st) && id in st.goods
    ensures Settled(Transferred(st, id, target))
  {
    FewerStoredStillWait(st, Transferred(st, id, target));
  }

  lemma LeaveSettles(st: State, id: Id, status: GoodsStatus)
    requires Settled(st) && id in st.goods && !status.Stored?
    ensures Settled(Leave(st, id, status))
  {
    FewerStoredStillWait(st, Leave(st, id, status));
  }

  lemma FinishedOutboundSettles(st: State, id: Id)
    requires Settled(st) && id in st.orders && st.orders[id].kind.Delivery?
    ensures Settled(Finished(st, id))
  {
    FewerStoredStillWait(st, Finished(st, id));
  }

  lemma DeletedSettles(st: State, c: Id)
    requires Settled(st) && Linked(st)
    ensures Settled(Deleted(st, c))
  {
    DeletedFollows(st, c);
    FewerStoredStillWait(st, Deleted(st, c));
  }

  lemma GoodsStepSettles(st: State, c: Call)
    requires Settled(st) && (c.request.DoUpdateStatus? || c.request.DoTransferSlot?)
    ensures Settled(After(st, c))
  {
    match c.request
    case DoUpdateStatus(id, status, slot) =>
      if MayUpdateStatus(st, id, status, slot, c.actor) {
        if status.Stored? {
          PutAwaySettles(st, id, PutTarget(st, id, slot).value);
        } else {
          LeaveSettles(st, id, status);
        }
      }
    case DoTransferSlot(id, target) =>
      if MayTransfer(st, id, target, c.actor) { TransferredSettles(st, id, target); }
  }

  lemma TenancyStepSettles(st: State, c: Call)
    requires Settled(st)
    requires c.request.DoRegister? || c.request.DoRentSpace? || c.request.DoChangeWarehouse? || c.request.DoPay? ||
        c.request.DoVerify?
    ensures Settled(After(st, c))
  {
    QuietRequests(st, c);
    FewerStoredStillWait(st, After(st, c));
  }

  lemma UpdateStepAndSettled(st: State, c: Call)
    requires Settled(st) && c.request.DoUpdateOrder?
    ensures Settled(After(st, c)) <==> InboundGuard(st, c)
  {
    var r := c.request;
    if MayUpdateOrder(st, r.id, r.to, r.vehicle, r.driver, c.actor, c.now) {
      UpdateAndSettled(st, r.id, r.to, r.vehicle, r.driver);
    }
  }

  lemma ReceiveStepSettles(st: State, c: Call)
    requires Settled(st) && c.request.DoReceive?
    requires c.request.id in st.orders ==> OrderSound(st.goods, st.orders[c.request.id])
    ensures Settled(After(st, c))
  {
    if MayReceive(st, c.request.id, c.request.counted, c.actor) { ReceivedSettles(st, c.request.id); }
  }

  lemma OrderStepAndSettled(st: State, c: Call)
    requires Sound(st) && Settled(st)
    requires c.request.DoUpdateOrder? || c.request.DoReceive? || c.request.DoSubmitPod?
    ensures Settled(After(st, c)) <==> InboundGuard(st, c)
  {
    match c.request
    case DoUpdateOrder(_, _, _, _) => UpdateStepAndSettled(st, c);
    case DoReceive(_, _) => ReceiveStepSettles(st, c);
    case DoSubmitPod(id) =>
      if MaySubmitPod(st, id, c.actor) { FinishedOutboundSettles(st, id); }
  }

  lemma OtherStepSettles(st: State, c: Call)
    requires Linked(st) && Settled(st)
    requires (c.request.DoReconcile? || c.request.DoCreateOrder? || c.request.DoDeleteUser?)
    ensures Settled(After(st, c))
  {
    match c.request
    case DoReconcile => FewerStoredStillWait(st, Reconciled(st));
    case DoCreateOrder(id, req) =>
      if MayCreate(st, id, req, c.actor, c.now) { CreatedSettles(st, id, req, OnBehalf(c.actor, req.customer)); }
    case DoDeleteUser(id) => DeletedSettles(st, id);
  }

  /** Every request leaves no finished order waiting, a status update exactly under its guard. */
  lemma StepAndSettled(st: State, c: Call)
    requires Sound(st) && Settled(st)
    ensures Settled(After(st, c)) <==> InboundGuard(st, c)
  {
    if c.request.DoUpdateOrder? || c.request.DoReceive? || c.request.DoSubmitPod? {
      OrderStepAndSettled(st, c);
    } else if c.request.DoUpdateStatus? || c.request.DoTransferSlot? {
      GoodsStepSettles(st, c);
    } else if c.request.DoReconcile? || c.request.DoCreateOrder? || c.request.DoDeleteUser? {
      OtherStepSettles(st, c);
    } else {
      TenancyStepSettles(st, c);
    }
  }

  ghost predicate SoundAndSettled(st: State) {
    Sound(st) && Settled(st)
  }

  /** Over any run under the guard, the last put-away, in whatever order they come and whichever
      orders share the goods, confirms the order: none is left received with all its goods stored. */
  lemma LastPutAwayConfirms(st: State, calls: seq<Call>)
    requires SoundAndSettled(st) && Guarded(st, calls, InboundGuard)
    ensures SoundAndSettled(Run(st, calls))
  {
    forall s, c | SoundAndSettled(s) && InboundGuard(s, c) ensures SoundAndSettled(After(s, c)) {
      StepKeepsSound(s, c);
      StepAndSettled(s, c);
    }
    RunKeeps(SoundAndSettled, InboundGuard, st, calls);
  }
}
