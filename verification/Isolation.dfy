/** Whose rows a request may change, and who puts goods on the racks. */
module Isolation {
  import opened Domain
  import opened Inventory
  import opened Dispatch
  import opened Tenancy
  import opened System
  import opened RackTheorems

  /** Every goods, order and invoice row that changes, appears or goes is this customer's. */
  ghost predicate OnlyGoodsOf(goods: map<Id, Goods>, after: map<Id, Goods>, c: Id) {
    && (forall g :: g in goods && goods[g].owner != c ==> g in after && after[g] == goods[g])
    && (forall g :: g in after && after[g].owner != c ==> g in goods && goods[g] == after[g])
  }

  ghost predicate OnlyOrdersOf(orders: map<Id, Order>, after: map<Id, Order>, c: Id) {
    && (forall o :: o in orders && orders[o].customer != c ==> o in after && after[o] == orders[o])
    && (forall o :: o in after && after[o].customer != c ==> o in orders && orders[o] == after[o])
  }

  ghost predicate OnlyInvoicesOf(invoices: map<Id, Invoice>, after: map<Id, Invoice>, c: Id) {
    && (forall i :: i in invoices && invoices[i].customer != c ==> i in after && after[i] == invoices[i])
    && (forall i :: i in after && after[i].customer != c ==> i in invoices && invoices[i] == after[i])
  }

  ghost predicate OnlyOf(st: State, after: State, c: Id) {
    OnlyGoodsOf(st.goods, after.goods, c) && OnlyOrdersOf(st.orders, after.orders, c)
    && OnlyInvoicesOf(st.invoices, after.invoices, c)
  }

  lemma GoodsRequestsTouchOwn(st: State, call: Call)
    requires call.actor.role.Customer? && (call.request.DoRegister? || call.request.DoUpdateStatus?)
    ensures OnlyOf(st, After(st, call), call.actor.id)
  {
    if call.request.DoUpdateStatus? {
      StatusTouchesOwn(st, call);
    }
  }

  lemma StatusTouchesOwn(st: State, call: Call)
    requires call.actor.role.Customer? && call.request.DoUpdateStatus?
    ensures OnlyOf(st, After(st, call), call.actor.id)
  {
    var r := call.request;
    if MayUpdateStatus(st, r.id, r.status, r.slot, call.actor) { LeaveTouchesOwner(st, r.id, r.status); }
  }

  lemma LeaveTouchesOwner(st: State, id: Id, status: GoodsStatus)
    requires id in st.goods
    ensures OnlyOf(st, Leave(st, id, status), st.goods[id].owner)
  {
  }

  lemma CreationTouchesOwn(st: State, call: Call)
    requires call.actor.role.Customer? && call.request.DoCreateOrder?
    ensures OnlyOf(st, After(st, call), call.actor.id)
  {
    var id, req := call.request.id, call.request.order;
    if MayCreate(st, id, req, call.actor, call.now) {
      var items := Wanted(req, st.goods);
      forall g | g in items ensures g in st.goods && st.goods[g].owner == call.actor.id {
        assert Suits(req, call.actor.id, st.goods[g], items[g]);
      }
      ScheduledTouchesOwn(st.goods, req.kind, items, call.actor.id);
    }
  }

  lemma ScheduledTouchesOwn(goods: map<Id, Goods>, kind: OrderType, items: map<Id, nat>, c: Id)
    requires forall g :: g in items ==> g in goods && goods[g].owner == c
    ensures OnlyGoodsOf(goods, Scheduled(goods, kind, items), c)
  {
  }

  lemma OrderRequestsTouchOwn(st: State, call: Call)
    requires call.actor.role.Customer?
    requires (call.request.DoUpdateOrder? || call.request.DoSubmitPod? || call.request.DoReceive?)
    ensures OnlyOf(st, After(st, call), call.actor.id)
  {
    if call.request.DoUpdateOrder? {
      UpdateTouchesOwn(st, call);
    } else if call.request.DoSubmitPod? {
      PodTouchesOwn(st, call);
    }
  }

  lemma PodTouchesOwn(st: State, call: Call)
    requires call.actor.role.Customer? && call.request.DoSubmitPod?
    ensures OnlyOf(st, After(st, call), call.actor.id)
  {
    if MaySubmitPod(st, call.request.id, call.actor) { FinishedTouchesCustomer(st, call.request.id); }
  }

  lemma FinishedTouchesCustomer(st: State, id: Id)
    requires id in st.orders
    ensures OnlyOf(st, Finished(st, id), st.orders[id].customer)
  {
  }

  lemma UpdateTouchesOwn(st: State, call: Call)
    requires call.actor.role.Customer? && call.request.DoUpdateOrder?
    ensures OnlyOf(st, After(st, call), call.actor.id)
  {
    var r := call.request;
    if MayUpdateOrder(st, r.id, r.to, r.vehicle, r.driver, call.actor, call.now) {
      assert SyncedGoods(st.goods, st.orders[r.id], r.to) == st.goods;
    }
  }

  lemma BillingTouchesOwn(st: State, call: Call)
    requires call.actor.role.Customer? && (call.request.DoRentSpace? || call.request.DoPay?)
    ensures OnlyOf(st, After(st, call), call.actor.id)
  {
    if call.request.DoPay? {
      PayTouchesOwn(st, call);
    }
  }

  lemma PayTouchesOwn(st: State, call: Call)
    requires call.actor.role.Customer? && call.request.DoPay?
    ensures OnlyOf(st, After(st, call), call.actor.id)
  {
    var id := call.request.id;
    if MayPay(st, id, call.request.amount, call.actor, call.now) {
      InvoiceTouchesCustomer(st, id, Awaiting(st.invoices[id], ChargeAt(st.invoices[id], call.now)));
    }
  }

  lemma InvoiceTouchesCustomer(st: State, id: Id, row: Invoice)
    requires id in st.invoices && row.customer == st.invoices[id].customer
    ensures OnlyOf(st, st.(invoices := st.invoices[id := row]), row.customer)
  {
  }

  lemma ChangeTouchesOwn(st: State, call: Call)
    requires call.actor.role.Customer? && call.request.DoChangeWarehouse?
    ensures OnlyOf(st, After(st, call), call.actor.id)
  {
  }

  /** Whatever a customer requests, only rows of that customer change. */
  lemma CustomersTouchTheirOwn(st: State, call: Call)
    requires call.actor.role.Customer?
    ensures OnlyOf(st, After(st, call), call.actor.id)
  {
    if call.request.DoRegister? || call.request.DoUpdateStatus? {
      GoodsRequestsTouchOwn(st, call);
    } else if call.request.DoCreateOrder? {
      CreationTouchesOwn(st, call);
    } else if call.request.DoUpdateOrder? || call.request.DoSubmitPod? || call.request.DoReceive? {
      OrderRequestsTouchOwn(st, call);
    } else if call.request.DoRentSpace? || call.request.DoPay? {
      BillingTouchesOwn(st, call);
    } else if call.request.DoChangeWarehouse? {
      ChangeTouchesOwn(st, call);
    } else {
      AdminRequestsTouchNothing(st, call);
    }
  }

  lemma AdminRequestsTouchNothing(st: State, call: Call)
    requires call.actor.role.Customer?
    requires call.request.DoTransferSlot? || call.request.DoReconcile? || call.request.DoVerify? ||
        call.request.DoDeleteUser?
    ensures OnlyOf(st, After(st, call), call.actor.id)
  {
  }

  /** Goods come onto a rack only by an Admin's put-away after inspection: the table's way back from
      PENDING_DELIVERY is closed by the put-away check. */
  lemma OnlyPutAwayStores(st: State, call: Call, g: Id)
    requires g in After(st, call).goods && After(st, call).goods[g].status.Stored?
    ensures (g in st.goods && st.goods[g].status.Stored?)
         || (call.actor.role.Admin? && call.request.DoUpdateStatus? && call.request.id == g
             && g in st.goods && st.goods[g].status.Inspecting?)
  {
    if Quiet(call.request) {
      QuietRequests(st, call);
    } else if call.request.DoUpdateStatus? {
      UpdateStores(st, call, g);
    } else {
      OthersStoreNothing(st, call, g);
    }
  }

  lemma OthersStoreNothing(st: State, call: Call, g: Id)
    requires call.request.DoTransferSlot? || call.request.DoReconcile? || call.request.DoReceive? ||
        call.request.DoDeleteUser?
    requires g in After(st, call).goods && After(st, call).goods[g].status.Stored?
    ensures g in st.goods && st.goods[g].status.Stored?
  {
  }

  lemma UpdateStores(st: State, call: Call, g: Id)
    requires call.request.DoUpdateStatus?
    requires g in After(st, call).goods && After(st, call).goods[g].status.Stored?
    ensures (g in st.goods && st.goods[g].status.Stored?)
         || (call.actor.role.Admin? && call.request.id == g && g in st.goods && st.goods[g].status.Inspecting?)
  {
    var r := call.request;
    if MayUpdateStatus(st, r.id, r.status, r.slot, call.actor) {
      if r.status.Stored? {
        PutAwayStores(st, r.id, PutTarget(st, r.id, r.slot).value, g);
      } else {
        LeavingStoresNothing(st, r.id, r.status, g);
      }
    }
  }

  lemma PutAwayStores(st: State, id: Id, s: Id, g: Id)
    requires id in st.goods && g in PutAway(st, id, s).goods && PutAway(st, id, s).goods[g].status.Stored?
    ensures g == id || (g in st.goods && st.goods[g].status.Stored?)
  {
  }

  lemma LeavingStoresNothing(st: State, id: Id, status: GoodsStatus, g: Id)
    requires id in st.goods && !status.Stored? && g in Leave(st, id, status).goods
    requires Leave(st, id, status).goods[g].status.Stored?
    ensures g in st.goods && st.goods[g].status.Stored?
  {
  }
}
