/** Packages are never promised twice, and what active orders carry was registered. */
module ReservationTheorems {
  import opened Domain
  import opened Sums
  import opened Dispatch
  import opened System
  import opened OrderTheorems
  import Shares

  /** Active orders of one type never claim more packages of a good than it has. */
  ghost predicate NoneOverclaimed(orders: map<Id, Order>, goods: map<Id, Goods>) {
    forall g, kind :: g in goods ==> ReservedQuantity(orders, g, kind) <= goods[g].quantity
  }

  ghost predicate WithinQuantity(st: State) {
    NoneOverclaimed(st.orders, st.goods)
  }

  lemma FewerClaims(orders: map<Id, Order>, after: map<Id, Order>, goods: map<Id, Goods>, g: Id, kind: OrderType)
    requires OrdersFollow(orders, after, goods)
    ensures ReservedQuantity(after, g, kind) <= ReservedQuantity(orders, g, kind)
  {
    var a, b := Claims(after, g, kind), Claims(orders, g, kind);
    forall o | o in a.Keys + b.Keys ensures At(a, o) <= At(b, o) {
      if o in a { assert SameCargo(orders[o], after[o]); }
    }
    Compare(a, b);
  }

  lemma FollowsKeepsQuantity(st: State, after: State)
    requires Linked(st) && WithinQuantity(st) && Follows(st, after)
    ensures WithinQuantity(after)
  {
    forall g, kind | g in after.goods ensures ReservedQuantity(after.orders, g, kind) <= after.goods[g].quantity {
      FewerClaims(st.orders, after.orders, after.goods, g, kind);
      if g in st.goods {
        assert Nature(after.goods[g]) == Nature(st.goods[g]);
      } else {
        assert Claims(st.orders, g, kind) == map[];
      }
    }
  }

  /** Inserting an order adds its own claim. */
  lemma OneMoreClaim(orders: map<Id, Order>, id: Id, o: Order, g: Id, kind: OrderType)
    requires id !in orders && Reserving(o.status)
    ensures ReservedQuantity(orders[id := o], g, kind)
         == ReservedQuantity(orders, g, kind) + if o.kind == kind && g in o.items then o.items[g] else 0
  {
    var before, after := Claims(orders, g, kind), Claims(orders[id := o], g, kind);
    if o.kind == kind && g in o.items {
      Put(before, id, o.items[g]);
      assert after == before[id := o.items[g]];
    } else {
      assert after == before;
    }
  }

  /** An order whose every claim is free can be inserted. */
  lemma InsertKeepsQuantity(orders: map<Id, Order>, goods: map<Id, Goods>, id: Id, o: Order)
    requires id !in orders && Reserving(o.status)
    requires NoneOverclaimed(orders, goods)
    requires forall g :: g in o.items && g in goods ==>
        ReservedQuantity(orders, g, o.kind) + o.items[g] <= goods[g].quantity
    ensures NoneOverclaimed(orders[id := o], goods)
  {
    var after := orders[id := o];
    forall g, kind | g in goods ensures ReservedQuantity(after, g, kind) <= goods[g].quantity {
      OneMoreClaim(orders, id, o, g, kind);
    }
  }

  lemma CreatedKeepsQuantity(st: State, id: Id, req: OrderRequest, c: Id)
    requires WithinQuantity(st) && GoodsAccepted(st, req, c) && id !in st.orders
    ensures WithinQuantity(Created(st, id, req, c))
  {
    var o, after := NewOrder(st, req, c), Created(st, id, req, c);
    AcceptedQuantities(st, req, c);
    forall g | g in o.items ensures ReservedQuantity(st.orders, g, o.kind) + o.items[g] <= st.goods[g].quantity {
      assert Claimable(st.orders, req.kind, g, st.goods[g].quantity, o.items[g]);
    }
    InsertKeepsQuantity(st.orders, st.goods, id, o);
    ScheduledNature(st.goods, req.kind, Wanted(req, st.goods));
    forall g | g in after.goods ensures after.goods[g].quantity == st.goods[g].quantity {
      assert Nature(after.goods[g]) == Nature(st.goods[g]);
    }
  }

  ghost predicate Accounted(st: State) {
    Sound(st) && WithinQuantity(st)
  }

  lemma StepKeepsAccounted(st: State, c: Call)
    requires Accounted(st)
    ensures Accounted(After(st, c))
  {
    StepKeepsSound(st, c);
    if c.request.DoCreateOrder? {
      CreateStepKeepsQuantity(st, c);
    } else {
      OtherStepsKeepQuantity(st, c);
    }
  }

  lemma CreateStepKeepsQuantity(st: State, c: Call)
    requires WithinQuantity(st) && c.request.DoCreateOrder?
    ensures WithinQuantity(After(st, c))
  {
    CreateKeepsQuantity(st, c.request.id, c.request.order, c.actor, c.now);
  }

  lemma OtherStepsKeepQuantity(st: State, c: Call)
    requires Accounted(st) && !c.request.DoCreateOrder?
    ensures WithinQuantity(After(st, c))
  {
    StepFollows(st, c);
    FollowsKeepsQuantity(st, After(st, c));
  }

  lemma CreateKeepsQuantity(st: State, id: Id, req: OrderRequest, actor: Actor, now: int)
    requires WithinQuantity(st)
    ensures CreateOrder(st, id, req, actor, now).Accepted? ==>
        WithinQuantity(CreateOrder(st, id, req, actor, now).value)
  {
    if CreateOrder(st, id, req, actor, now).Accepted? {
      CreatedKeepsQuantity(st, id, req, OnBehalf(actor, req.customer));
    }
  }

  /** Whatever requests run, orders stay sound and no package is promised twice. */
  lemma NothingIsPromisedTwice(st: State, calls: seq<Call>)
    requires Accounted(st)
    ensures Accounted(Run(st, calls))
  {
    forall s, c | Accounted(s) && Always(s, c) ensures Accounted(After(s, c)) {
      StepKeepsAccounted(s, c);
    }
    Unguarded(st, calls);
    RunKeeps(Accounted, Always, st, calls);
  }

  // ---- conservation of volume and weight ----

  /** Active orders of one type. */
  ghost function ActiveOrders(orders: map<Id, Order>, kind: OrderType): set<Id> {
    set o | o in orders && orders[o].kind == kind && Reserving(orders[o].status)
  }

  /** The goods they carry. */
  ghost function CargoGoods(st: State, kind: OrderType): set<Id> {
    set o, g | o in ActiveOrders(st.orders, kind) && g in st.orders[o].items :: g
  }

  /** A measure of goods with the order total made from it. */
  datatype Gauge = ByVolume | ByWeight
  {
    function OfGoods(g: Goods): nat {
      match this case ByVolume => g.volume case ByWeight => g.weight
    }

    function OfOrder(o: Order): int {
      match this case ByVolume => o.volume case ByWeight => o.weight
    }

    ghost function SharesOf(goods: map<Id, Goods>, items: map<Id, nat>): map<Id, real> {
      match this case ByVolume => VolumeShares(goods, items) case ByWeight => WeightShares(goods, items)
    }
  }

  /** Order `o`'s part of good `g`. */
  ghost function PartOf(st: State, gauge: Gauge): (Id, Id) -> real {
    (o: Id, g: Id) => if o in st.orders then Shares.At(gauge.SharesOf(st.goods, st.orders[o].items), g) else 0.0
  }

  lemma SharesAreNonNegative(gauge: Gauge, goods: map<Id, Goods>, items: map<Id, nat>)
    ensures forall g :: g in gauge.SharesOf(goods, items) ==> 0.0 <= gauge.SharesOf(goods, items)[g]
  {
    forall g | g in gauge.SharesOf(goods, items) ensures 0.0 <= gauge.SharesOf(goods, items)[g] {
      ShareIsAMultiple(gauge.OfGoods(goods[g]), goods[g].quantity, items[g]);
    }
  }

  lemma ShareIsAMultiple(measure: nat, quantity: nat, n: nat)
    ensures 0.0 <= Share(measure, quantity, n)
    ensures 0 < quantity ==> Share(measure, quantity, n) == Shares.Times(measure as real / quantity as real, n as real)
  {
    if 0 < quantity { assert 0.0 <= measure as real / quantity as real; }
  }

  lemma RowIsTheShares(st: State, gauge: Gauge, o: Id, goods: set<Id>)
    requires o in st.orders && st.orders[o].items.Keys <= goods
    ensures Shares.Total(Shares.Row(PartOf(st, gauge), o, goods))
         == Shares.Total(gauge.SharesOf(st.goods, st.orders[o].items))
  {
    Shares.Pad(gauge.SharesOf(st.goods, st.orders[o].items), Shares.Row(PartOf(st, gauge), o, goods));
  }

  /** A rounded order total exceeds its exact parts by at most half a unit. */
  lemma TotalIsNearItsParts(st: State, gauge: Gauge, o: Id, goods: set<Id>)
    requires o in st.orders && OrderSound(st.goods, st.orders[o]) && st.orders[o].items.Keys <= goods
    ensures gauge.OfOrder(st.orders[o]) as real <= Shares.Total(Shares.Row(PartOf(st, gauge), o, goods)) + 0.5
  {
    var parts := gauge.SharesOf(st.goods, st.orders[o].items);
    RowIsTheShares(st, gauge, o, goods);
    SharesAreNonNegative(gauge, st.goods, st.orders[o].items);
    Shares.NonNegative(parts);
    assert gauge.OfOrder(st.orders[o]) == Rounded(parts);
  }

  ghost function ClaimsReal(st: State, g: Id, orders: set<Id>): map<Id, real> {
    map o | o in orders :: if o in st.orders && g in st.orders[o].items then st.orders[o].items[g] as real else 0.0
  }

  lemma ClaimsAddUp(st: State, g: Id, kind: OrderType)
    ensures Shares.Total(ClaimsReal(st, g, ActiveOrders(st.orders, kind)))
        == ReservedQuantity(st.orders, g, kind) as real
  {
    var claims := Claims(st.orders, g, kind);
    Shares.Pad(Shares.Reals(claims), ClaimsReal(st, g, ActiveOrders(st.orders, kind)));
    Shares.WholeTotal(claims);
  }

  lemma PartsAreMultiples(st: State, gauge: Gauge, g: Id, orders: set<Id>)
    requires g in st.goods && 0 < st.goods[g].quantity
    ensures var unit := gauge.OfGoods(st.goods[g]) as real / st.goods[g].quantity as real;
      Shares.Total(Shares.Column(PartOf(st, gauge), g, orders))
        == Shares.Times(unit, Shares.Total(ClaimsReal(st, g, orders)))
  {
    var claims, parts := ClaimsReal(st, g, orders), Shares.Column(PartOf(st, gauge), g, orders);
    var unit := gauge.OfGoods(st.goods[g]) as real / st.goods[g].quantity as real;
    forall o | o in orders ensures parts[o] == Shares.Times(unit, claims[o]) {
      PartIsAMultiple(st, gauge, g, o);
    }
    Shares.Scale(parts, claims, unit);
  }

  lemma PartIsAMultiple(st: State, gauge: Gauge, g: Id, o: Id)
    requires g in st.goods && 0 < st.goods[g].quantity
    ensures var unit := gauge.OfGoods(st.goods[g]) as real / st.goods[g].quantity as real;
      PartOf(st, gauge)(o, g)
        == Shares.Times(unit, if o in st.orders && g in st.orders[o].items then st.orders[o].items[g] as real else 0.0)
  {
    if o in st.orders && g in st.orders[o].items {
      ShareIsAMultiple(gauge.OfGoods(st.goods[g]), st.goods[g].quantity, st.orders[o].items[g]);
    }
  }

  /** Over all active orders, one good's parts add up to at most the whole good. */
  lemma PartsOfOneGood(st: State, gauge: Gauge, g: Id, kind: OrderType)
    requires WithinQuantity(st) && g in st.goods && 0 < st.goods[g].quantity
    ensures Shares.Total(Shares.Column(PartOf(st, gauge), g, ActiveOrders(st.orders, kind)))
         <= gauge.OfGoods(st.goods[g]) as real
  {
    ClaimsAddUp(st, g, kind);
    PartsAreMultiples(st, gauge, g, ActiveOrders(st.orders, kind));
    assert ReservedQuantity(st.orders, g, kind) <= st.goods[g].quantity;
    WholeUnits(gauge.OfGoods(st.goods[g]) as real, st.goods[g].quantity as real,
               ReservedQuantity(st.orders, g, kind) as real);
  }

  lemma WholeUnits(measure: real, quantity: real, claimed: real)
    requires 0.0 <= measure && 0.0 < quantity && claimed <= quantity
    ensures Shares.Times(measure / quantity, claimed) <= measure
  {
    var unit := measure / quantity;
    assert unit * quantity == measure;
    assert 0.0 <= unit;
    assert unit * claimed <= unit * quantity;
  }

  ghost function OrderTotals(st: State, gauge: Gauge, kind: OrderType): map<Id, int> {
    map o | o in ActiveOrders(st.orders, kind) :: gauge.OfOrder(st.orders[o])
  }

  ghost function GoodsTotals(st: State, gauge: Gauge, kind: OrderType): map<Id, int> {
    map g | g in CargoGoods(st, kind) && g in st.goods :: gauge.OfGoods(st.goods[g])
  }

  lemma OrdersAreNearTheirParts(st: State, gauge: Gauge, kind: OrderType)
    requires Accounted(st)
    ensures Sum(OrderTotals(st, gauge, kind)) as real
         <= Shares.Total(Shares.ByRow(PartOf(st, gauge), ActiveOrders(st.orders, kind), CargoGoods(st, kind)))
            + 0.5 * |ActiveOrders(st.orders, kind)| as real
  {
    var active, carried, totals := ActiveOrders(st.orders, kind), CargoGoods(st, kind), OrderTotals(st, gauge, kind);
    var rows := Shares.ByRow(PartOf(st, gauge), active, carried);
    forall o | o in active ensures totals[o] as real <= rows[o] + 0.5 {
      TotalIsNearItsParts(st, gauge, o, carried);
    }
    Shares.WholeTotal(totals);
    Shares.HalfOver(Shares.Reals(totals), rows);
    assert totals.Keys == active;
  }

  lemma CarriedIsWithinTheGood(st: State, gauge: Gauge, kind: OrderType, g: Id)
    requires Accounted(st) && g in CargoGoods(st, kind)
    ensures g in GoodsTotals(st, gauge, kind)
    ensures Shares.Total(Shares.Column(PartOf(st, gauge), g, ActiveOrders(st.orders, kind)))
         <= GoodsTotals(st, gauge, kind)[g] as real
  {
    var o :| o in ActiveOrders(st.orders, kind) && g in st.orders[o].items;
    assert OrderSound(st.goods, st.orders[o]);
    PartsOfOneGood(st, gauge, g, kind);
  }

  lemma ColumnsAreWithin(f: (Id, Id) -> real, orders: set<Id>, goods: map<Id, int>)
    requires forall g :: g in goods ==> Shares.Total(Shares.Column(f, g, orders)) <= goods[g] as real
    ensures Shares.Total(Shares.ByColumn(f, orders, goods.Keys)) <= Sum(goods) as real
  {
    Shares.Compare(Shares.ByColumn(f, orders, goods.Keys), Shares.Reals(goods));
    Shares.WholeTotal(goods);
  }

  lemma CargoIsListed(st: State, gauge: Gauge, kind: OrderType)
    requires Accounted(st)
    ensures GoodsTotals(st, gauge, kind).Keys == CargoGoods(st, kind)
  {
    forall g | g in CargoGoods(st, kind) ensures g in st.goods {
      var o :| o in ActiveOrders(st.orders, kind) && g in st.orders[o].items;
      assert OrderSound(st.goods, st.orders[o]);
    }
  }

  lemma PartsAreWithinGoods(st: State, gauge: Gauge, kind: OrderType)
    requires Accounted(st)
    ensures Shares.Total(Shares.ByColumn(PartOf(st, gauge), ActiveOrders(st.orders, kind), CargoGoods(st, kind)))
         <= Sum(GoodsTotals(st, gauge, kind)) as real
  {
    var goods := GoodsTotals(st, gauge, kind);
    CargoIsListed(st, gauge, kind);
    forall g | g in goods
      ensures Shares.Total(Shares.Column(PartOf(st, gauge), g, ActiveOrders(st.orders, kind))) <= goods[g] as real
    {
      CarriedIsWithinTheGood(st, gauge, kind, g);
    }
    ColumnsAreWithin(PartOf(st, gauge), ActiveOrders(st.orders, kind), goods);
  }

  /** Conservation: the stored totals of all active orders of one type exceed what was registered
      for the goods they carry by at most half a rounding unit for each order. */
  lemma OrdersConserveGoods(st: State, gauge: Gauge, kind: OrderType)
    requires Accounted(st)
    ensures 2 * Sum(OrderTotals(st, gauge, kind))
         <= 2 * Sum(GoodsTotals(st, gauge, kind)) + |ActiveOrders(st.orders, kind)|
  {
    OrdersAreNearTheirParts(st, gauge, kind);
    Shares.Exchange(PartOf(st, gauge), ActiveOrders(st.orders, kind), CargoGoods(st, kind));
    PartsAreWithinGoods(st, gauge, kind);
  }
}
