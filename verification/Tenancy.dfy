/** Renting space, changing the rented warehouse, billing it, and deleting an account. */
module Tenancy {
  import opened Domain
  import opened Capacity
  import opened Inventory
  import Pricing

  // ---- rentals ----

  datatype RentDto = RentDto(warehouse: Id, zone: Zone, volume: Count, months: Count)

  /** Subtotal in cents: the monthly fee is a whole number of IDR. */
  function GrandTotal(dto: RentDto): int {
    100 * (Pricing.MonthlyFee(dto.volume, Pricing.RatePerM3(dto.zone)) * dto.months)
  }

  function NewInvoice(dto: RentDto, c: Id, start: int): Invoice {
    Invoice(c, dto.warehouse, dto.zone, dto.volume, dto.months, start, start + Pricing.GRACE,
            GrandTotal(dto), 0, GrandTotal(dto), Unpaid, [])
  }

  function RentSpace(st: State, id: Id, dto: RentDto, actor: Actor, start: int): Reply<State> {
    if actor.role.Driver? || dto.warehouse !in st.houses || id in st.invoices then Refused
    else Accepted(st.(invoices := st.invoices[id := NewInvoice(dto, actor.id, start)]))
  }

  /** Goods that have entered warehouse operations. */
  predicate Operational(s: GoodsStatus) {
    s.Inspecting? || s.Stored? || s.PendingDelivery? || s.InTransitOutbound? || s.Delivered?
  }

  function OwnedIn(goods: map<Id, Goods>, c: Id, w: Id): set<Id> {
    set g | g in goods && goods[g].owner == c && goods[g].warehouse == w
  }

  function Relocated(goods: map<Id, Goods>, c: Id, source: Id, target: Id): map<Id, Goods> {
    map g | g in goods ::
      if g in OwnedIn(goods, c, source) && (goods[g].status.Draft? || goods[g].status.PendingPickup?)
      then goods[g].(warehouse := target) else goods[g]
  }

  function Reassigned(invoices: map<Id, Invoice>, c: Id, source: Id, target: Id): map<Id, Invoice> {
    map i | i in invoices ::
      if i in Rentals(invoices, c, source) then invoices[i].(warehouse := target) else invoices[i]
  }

  predicate MayChange(st: State, source: Id, target: Id, actor: Actor) {
    && !actor.role.Driver? && source != target && source in st.houses && target in st.houses
    && st.houses[target].active
    && (forall g :: g in OwnedIn(st.goods, actor.id, source) ==> !Operational(st.goods[g].status))
    && (Rentals(st.invoices, actor.id, source) != map[] || OwnedIn(st.goods, actor.id, source) != {})
  }

  ghost function Changed(st: State, c: Id, source: Id, target: Id): State {
    st.(goods := Relocated(st.goods, c, source, target),
        invoices := Reassigned(st.invoices, c, source, target))
  }

  ghost function ChangeWarehouse(st: State, source: Id, target: Id, actor: Actor): Reply<State> {
    if MayChange(st, source, target, actor) then Accepted(Changed(st, actor.id, source, target)) else Refused
  }

  // ---- payments ----

  datatype Charge = Charge(penaltyFee: int, totalAmount: int, status: InvoiceStatus)

  /** `calculatePenalty`: what an invoice owes and which status it shows at `now`. */
  function CalculatePenalty(subtotal: int, due: int, status: InvoiceStatus, now: int): Charge {
    if status == Paid || status == InvoiceStatus.Cancelled then Charge(0, subtotal, status)
    else if now <= due then
      Charge(0, subtotal, if status == PendingPayment then PendingPayment else Unpaid)
    else
      var fee := Pricing.Penalty(subtotal, Pricing.OverdueWeeks(now - due));
      Charge(fee, subtotal + fee, if status == PendingPayment then PendingPayment else Overdue)
  }

  function ChargeAt(inv: Invoice, now: int): Charge {
    CalculatePenalty(inv.subtotal, inv.due, inv.status, now)
  }

  predicate AnyUnderReview(payments: seq<Payment>) {
    exists k :: 0 <= k < |payments| && payments[k].status == UnderReview
  }

  predicate MayPay(st: State, id: Id, amount: int, actor: Actor, now: int) {
    && id in st.invoices
    && var inv := st.invoices[id];
    && (actor.role.Customer? ==> inv.customer == actor.id)
    && !inv.status.Paid? && !inv.status.Cancelled? && !inv.status.PendingPayment? && !AnyUnderReview(inv.payments)
    && amount == ChargeAt(inv, now).totalAmount
  }

  function Awaiting(inv: Invoice, charge: Charge): Invoice {
    inv.(status := PendingPayment, penaltyFee := charge.penaltyFee, totalAmount := charge.totalAmount,
         payments := [Payment(charge.totalAmount, UnderReview)] + inv.payments)
  }

  function PayInvoice(st: State, id: Id, amount: int, actor: Actor, now: int): Reply<State> {
    if MayPay(st, id, amount, actor, now)
    then Accepted(st.(invoices := st.invoices[id := Awaiting(st.invoices[id], ChargeAt(st.invoices[id], now))]))
    else Refused
  }

  /** The newest payment under review is settled; the others stay. */
  function Resolved(payments: seq<Payment>, s: PaymentStatus): seq<Payment> {
    if payments == [] then []
    else if payments[0].status == UnderReview then [payments[0].(status := s)] + payments[1..]
    else [payments[0]] + Resolved(payments[1..], s)
  }

  datatype Verdict = Verify | Reject

  function Judged(inv: Invoice, verdict: Verdict, now: int): Invoice {
    match verdict
    case Verify => inv.(status := Paid, payments := Resolved(inv.payments, Verified))
    case Reject =>
      inv.(status := if inv.due < now then Overdue else Unpaid, payments := Resolved(inv.payments, Rejected))
  }

  /** There is no check of the invoice's status. */
  function VerifyPayment(st: State, id: Id, verdict: Verdict, actor: Actor, now: int): Reply<State> {
    if !actor.role.Admin? || id !in st.invoices then Refused
    else Accepted(st.(invoices := st.invoices[id := Judged(st.invoices[id], verdict, now)]))
  }

  // ---- deleting an account ----

  function OwnedBy(goods: map<Id, Goods>, c: Id): set<Id> {
    set g | g in goods && goods[g].owner == c
  }

  /** Order items of deleted goods and the customer's orders go; a deleted driver is unset. */
  function Purged(orders: map<Id, Order>, c: Id, gone: set<Id>): map<Id, Order> {
    map o | o in orders && orders[o].customer != c ::
      orders[o].(items := orders[o].items - gone,
                 driver := if orders[o].driver == Some(c) then None else orders[o].driver)
  }

  ghost function Deleted(st: State, c: Id): State {
    var gone := OwnedBy(st.goods, c);
    var goods := st.goods - gone;
    st.(goods := goods,
        orders := Purged(st.orders, c, gone),
        invoices := map i | i in st.invoices && st.invoices[i].customer != c :: st.invoices[i],
        users := st.users - {c},
        slots := RecalculatedSlots(
          st.slots, goods, set g | g in gone && st.goods[g].slot.Some? :: st.goods[g].slot.value),
        houses := RecalculatedHouses(st.houses, goods, set g | g in gone :: st.goods[g].warehouse))
  }

  ghost function DeleteUser(st: State, c: Id, actor: Actor): Reply<State> {
    if actor.role.Admin? && actor.id != c && c in st.users then Accepted(Deleted(st, c)) else Refused
  }
}
