/** Concurrent order creations: each transaction locks its goods rows, checks what active orders
    have reserved, and inserts its order, while others do the same and orders change status. */
module Reservations {
  import opened Domain
  import opened Sums
  import opened Dispatch
  import opened System
  import opened ReservationTheorems
  import Reachable

  /** A creation under way: the order it will insert, the rows it has locked, the rows it has checked. */
  datatype Creation = Creation(order: Order, held: set<Id>, passed: set<Id>)

  /** Committed rows, the transaction holding each goods row, and the transactions under way. */
  datatype Sessions = Sessions(
    goods: map<Id, Goods>, orders: map<Id, Order>, holder: map<Id, Id>, open: map<Id, Creation>)

  datatype Step =
    | Begin(t: Id, order: Order)
    | Lock(t: Id, g: Id)
    | Check(t: Id, g: Id)
    | Insert(t: Id, id: Id)
    | Abort(t: Id)
    | Progress(o: Id, status: OrderStatus)
    | Remove(ids: set<Id>)

  /** Every status an order can be moved to: by the state machine, by receiving, by a proof of
      delivery in any status, and by the confirmation that follows put-away. */
  predicate MayMove(o: Order, t: OrderStatus) {
    OrderMay(o.status, t) || (o.status.ArrivedDestination? && t.Delivered?)
    || (o.kind.Delivery? && t.Delivered?) || (o.status.Delivered? && t.Confirmed?)
  }

  /** No order becomes active again. */
  lemma NothingReactivates(o: Order, t: OrderStatus)
    requires MayMove(o, t)
    ensures Reserving(t) ==> Reserving(o.status)
  {
  }

  ghost predicate OnlyMoves(orders: map<Id, Order>, after: map<Id, Order>) {
    forall o :: o in after ==>
      o in orders && (after[o].status == orders[o].status || MayMove(orders[o], after[o].status))
  }

  lemma GoodsStepsOnlyMove(st: State, c: Call)
    requires c.request.DoUpdateStatus? || c.request.DoTransferSlot? || c.request.DoDeleteUser?
    ensures OnlyMoves(st.orders, After(st, c).orders)
  {
  }

  lemma OrderStepsOnlyMove(st: State, c: Call)
    requires c.request.DoUpdateOrder? || c.request.DoReceive? || c.request.DoSubmitPod?
    ensures OnlyMoves(st.orders, After(st, c).orders)
  {
    if c.request.DoUpdateOrder? {
      UpdatesOnlyMove(st, c);
    }
  }

  lemma UpdatesOnlyMove(st: State, c: Call)
    requires c.request.DoUpdateOrder?
    ensures OnlyMoves(st.orders, After(st, c).orders)
  {
  }

  /** Whatever a request does besides creating orders to the orders there are, it moves them so. */
  lemma RequestsOnlyMove(st: State, c: Call)
    requires !c.request.DoCreateOrder?
    ensures OnlyMoves(st.orders, After(st, c).orders)
  {
    if c.request.DoUpdateStatus? || c.request.DoTransferSlot? || c.request.DoDeleteUser? {
      GoodsStepsOnlyMove(st, c);
    } else if c.request.DoUpdateOrder? || c.request.DoReceive? || c.request.DoSubmitPod? {
      OrderStepsOnlyMove(st, c);
    }
  }

  function Released(holder: map<Id, Id>, t: Id): map<Id, Id> {
    map g | g in holder && holder[g] != t :: holder[g]
  }

  function Ended(ss: Sessions, t: Id): Sessions {
    ss.(open := ss.open - {t}, holder := Released(ss.holder, t))
  }

  /** What a step does; a step that cannot be taken now does nothing. Locks are held until the end,
      checks start when every row is locked, and each check reads the committed rows of its moment. */
  ghost function Next(ss: Sessions, step: Step): Sessions {
    match step
    case Begin(t, order) =>
      if t in ss.open || !(order.items.Keys <= ss.goods.Keys) || !Reserving(order.status) then ss
      else ss.(open := ss.open[t := Creation(order, {}, {})])
    case Lock(t, g) =>
      if t !in ss.open || g !in ss.open[t].order.items || g in ss.holder then ss
      else ss.(open := ss.open[t := ss.open[t].(held := ss.open[t].held + {g})], holder := ss.holder[g := t])
    case Check(t, g) =>
      if t !in ss.open || g !in ss.open[t].order.items || g !in ss.goods
         || ss.open[t].held != ss.open[t].order.items.Keys then ss
      else if Claimable(ss.orders, ss.open[t].order.kind, g, ss.goods[g].quantity, ss.open[t].order.items[g])
      then ss.(open := ss.open[t := ss.open[t].(passed := ss.open[t].passed + {g})])
      else Ended(ss, t)
    case Insert(t, id) =>
      if t !in ss.open || ss.open[t].passed != ss.open[t].order.items.Keys || id in ss.orders then ss
      else Ended(ss, t).(orders := ss.orders[id := ss.open[t].order])
    case Abort(t) => if t in ss.open then Ended(ss, t) else ss
    case Progress(o, s) =>
      if o !in ss.orders || !MayMove(ss.orders[o], s) then ss
      else ss.(orders := ss.orders[o := ss.orders[o].(status := s)])
    case Remove(ids) => ss.(orders := ss.orders - ids)
  }

  /** What a check established still holds, because nobody else can claim a locked row. */
  ghost predicate StillFree(ss: Sessions, t: Id, g: Id)
    requires t in ss.open && g in ss.open[t].order.items && g in ss.goods
  {
    ReservedQuantity(ss.orders, g, ss.open[t].order.kind) + ss.open[t].order.items[g] <= ss.goods[g].quantity
  }

  ghost predicate WellLocked(ss: Sessions, t: Id)
    requires t in ss.open
  {
    var c := ss.open[t];
    && c.order.items.Keys <= ss.goods.Keys && Reserving(c.order.status)
    && c.held <= c.order.items.Keys && c.passed <= c.held
    && forall g :: g in c.held ==> g in ss.holder && ss.holder[g] == t
  }

  ghost predicate Protected(ss: Sessions) {
    && NoneOverclaimed(ss.orders, ss.goods)
    && (forall t :: t in ss.open ==> WellLocked(ss, t))
    && (forall t, g :: t in ss.open && g in ss.open[t].passed ==> StillFree(ss, t, g))
  }

  /** Committed rows whose claims only shrink leave every check standing. */
  lemma FewerClaimsKeepProtected(ss: Sessions, after: map<Id, Order>)
    requires Protected(ss)
    requires forall g, kind :: ReservedQuantity(after, g, kind) <= ReservedQuantity(ss.orders, g, kind)
    ensures Protected(ss.(orders := after))
  {
    var ss' := ss.(orders := after);
    forall t | t in ss.open ensures WellLocked(ss', t) {
      assert WellLocked(ss, t);
    }
    forall t, g | t in ss.open && g in ss.open[t].passed ensures StillFree(ss', t, g) {
      assert StillFree(ss, t, g);
    }
  }

  lemma ProgressKeepsProtected(ss: Sessions, o: Id, s: OrderStatus)
    requires Protected(ss)
    ensures Protected(Next(ss, Progress(o, s)))
  {
    if o in ss.orders && MayMove(ss.orders[o], s) {
      var after := ss.orders[o := ss.orders[o].(status := s)];
      NothingReactivates(ss.orders[o], s);
      forall g, kind ensures ReservedQuantity(after, g, kind) <= ReservedQuantity(ss.orders, g, kind) {
        Compare(Claims(after, g, kind), Claims(ss.orders, g, kind));
      }
      FewerClaimsKeepProtected(ss, after);
    }
  }

  lemma RemoveKeepsProtected(ss: Sessions, ids: set<Id>)
    requires Protected(ss)
    ensures Protected(Next(ss, Remove(ids)))
  {
    var after := ss.orders - ids;
    forall g, kind ensures ReservedQuantity(after, g, kind) <= ReservedQuantity(ss.orders, g, kind) {
      Compare(Claims(after, g, kind), Claims(ss.orders, g, kind));
    }
    FewerClaimsKeepProtected(ss, after);
  }

  lemma EndedKeepsProtected(ss: Sessions, t: Id)
    requires Protected(ss)
    ensures Protected(Ended(ss, t))
  {
    var after := Ended(ss, t);
    forall u | u in after.open ensures WellLocked(after, u) {
      assert WellLocked(ss, u);
    }
    forall u, g | u in after.open && g in after.open[u].passed ensures StillFree(after, u, g) {
      assert StillFree(ss, u, g);
    }
  }

  /** The insert claims only rows its own transaction holds, so no other check is disturbed. */
  lemma InsertKeepsProtected(ss: Sessions, t: Id, id: Id)
    requires Protected(ss)
    ensures Protected(Next(ss, Insert(t, id)))
  {
    if t in ss.open && ss.open[t].passed == ss.open[t].order.items.Keys && id !in ss.orders {
      var order, ended := ss.open[t].order, Ended(ss, t);
      EndedKeepsProtected(ss, t);
      assert WellLocked(ss, t);
      forall g | g in order.items
        ensures ReservedQuantity(ss.orders, g, order.kind) + order.items[g] <= ss.goods[g].quantity
      {
        assert StillFree(ss, t, g);
      }
      InsertKeepsQuantity(ss.orders, ss.goods, id, order);
      var after := ended.(orders := ss.orders[id := order]);
      forall u | u in after.open ensures WellLocked(after, u) {
        assert WellLocked(ended, u);
      }
      forall u, g | u in after.open && g in after.open[u].passed ensures StillFree(after, u, g) {
        assert WellLocked(ss, u) && StillFree(ended, u, g);
        OneMoreClaim(ss.orders, id, order, g, after.open[u].order.kind);
      }
    }
  }

  lemma LockKeepsProtected(ss: Sessions, t: Id, g: Id)
    requires Protected(ss)
    ensures Protected(Next(ss, Lock(t, g)))
  {
    var after := Next(ss, Lock(t, g));
    forall u | u in after.open ensures WellLocked(after, u) {
      assert WellLocked(ss, u);
    }
    forall u, k | u in after.open && k in after.open[u].passed ensures StillFree(after, u, k) {
      assert StillFree(ss, u, k);
    }
  }

  lemma CheckKeepsProtected(ss: Sessions, t: Id, g: Id)
    requires Protected(ss)
    ensures Protected(Next(ss, Check(t, g)))
  {
    EndedKeepsProtected(ss, t);
    var after := Next(ss, Check(t, g));
    if after != Ended(ss, t) {
      forall u | u in after.open ensures WellLocked(after, u) {
        assert WellLocked(ss, u);
      }
      forall u, k | u in after.open && k in after.open[u].passed ensures StillFree(after, u, k) {
        if k in ss.open[u].passed { assert StillFree(ss, u, k); }
      }
    }
  }

  lemma BeginKeepsProtected(ss: Sessions, t: Id, order: Order)
    requires Protected(ss)
    ensures Protected(Next(ss, Begin(t, order)))
  {
    var after := Next(ss, Begin(t, order));
    forall u | u in after.open ensures WellLocked(after, u) {
      if u in ss.open { assert WellLocked(ss, u); }
    }
    forall u, k | u in after.open && k in after.open[u].passed ensures StillFree(after, u, k) {
      assert StillFree(ss, u, k);
    }
  }

  lemma StepKeepsProtected(ss: Sessions, step: Step)
    requires Protected(ss)
    ensures Protected(Next(ss, step))
  {
    match step
    case Begin(t, order) => BeginKeepsProtected(ss, t, order);
    case Lock(t, g) => LockKeepsProtected(ss, t, g);
    case Check(t, g) => CheckKeepsProtected(ss, t, g);
    case Insert(t, id) => InsertKeepsProtected(ss, t, id);
    case Abort(t) => EndedKeepsProtected(ss, t);
    case Progress(o, s) => ProgressKeepsProtected(ss, o, s);
    case Remove(ids) => RemoveKeepsProtected(ss, ids);
  }

  ghost function Interleave(ss: Sessions, steps: seq<Step>): Sessions
    decreases |steps|
  {
    if steps == [] then ss else Interleave(Next(ss, steps[0]), steps[1..])
  }

  /** In every interleaving, for each good and each order type, the packages active orders have
      reserved never exceed the good's quantity. */
  lemma {:induction false} NoInterleavingOverclaims(ss: Sessions, steps: seq<Step>)
    requires Protected(ss)
    ensures var end := Interleave(ss, steps);
      && Protected(end)
      && forall g, kind :: g in end.goods ==>
        ReservedQuantity(end.orders, g, kind) <= end.goods[g].quantity
    decreases |steps|
  {
    if steps != [] {
      StepKeepsProtected(ss, steps[0]);
      NoInterleavingOverclaims(Next(ss, steps[0]), steps[1..]);
    }
  }

  /** An insert that commits would pass every check against the rows it commits to: interleaved
      creations are the atomic ones, in the order of their commits. */
  lemma InsertsAreSerialisable(ss: Sessions, t: Id)
    requires Protected(ss) && t in ss.open && ss.open[t].passed == ss.open[t].order.items.Keys
    requires forall g :: g in ss.open[t].order.items ==> 1 <= ss.open[t].order.items[g]
    ensures forall g :: g in ss.open[t].order.items ==>
      g in ss.goods && Claimable(ss.orders, ss.open[t].order.kind, g, ss.goods[g].quantity, ss.open[t].order.items[g])
  {
    assert WellLocked(ss, t);
    forall g | g in ss.open[t].order.items
      ensures Claimable(ss.orders, ss.open[t].order.kind, g, ss.goods[g].quantity, ss.open[t].order.items[g])
    {
      assert StillFree(ss, t, g);
    }
  }

  /** With nothing under way, the atomic property is all it takes to start from. */
  lemma NobodyAtWork(ss: Sessions)
    requires ss.open == map[]
    ensures Protected(ss) <==> NoneOverclaimed(ss.orders, ss.goods)
  {
  }

  /** From any reachable state, once transactions are let in: no interleaving overclaims. */
  lemma NoReachableStateOverclaims(st: State, calls: seq<Call>, steps: seq<Step>, g: Id, kind: OrderType)
    requires Reachable.Opening(st)
    ensures var end := Run(st, calls);
      var after := Interleave(Sessions(end.goods, end.orders, map[], map[]), steps);
      g in after.goods ==> ReservedQuantity(after.orders, g, kind) <= after.goods[g].quantity
  {
    Reachable.EveryReachableState(st, calls);
    var end := Run(st, calls);
    var start := Sessions(end.goods, end.orders, map[], map[]);
    NobodyAtWork(start);
    NoInterleavingOverclaims(start, steps);
  }
}
