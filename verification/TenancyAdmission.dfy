/** What is rented for how much, what may be moved and paid, and what a deleted account leaves. */
module TenancyAdmission {
  import opened Domain
  import opened Sums
  import opened Capacity
  import opened Inventory
  import opened Tenancy
  import opened System
  import opened BillingTheorems
  import opened GoodsAdmission
  import Pricing

  // ---- renting ----

  /** IDR for each cubic metre and month. */
  function ZoneRate(zone: Zone): int {
    match zone
    case Standard => 50_000
    case HeavyDuty => 75_000
    case ColdStorage => 150_000
  }

  /** Whole cubic metres cost the rate of their zone each. */
  lemma CubicMetresCostTheRate(zone: Zone, metres: int)
    requires 1 <= metres
    ensures Pricing.MonthlyFee(10_000 * metres, Pricing.RatePerM3(zone)) == metres * ZoneRate(zone)
  {
    assert 10_000 * metres * ZoneRate(zone) == 10_000 * (metres * ZoneRate(zone));
    WholeFee(metres, ZoneRate(zone));
  }

  lemma WholeFee(metres: int, rate: int)
    requires 1 <= metres && 50_000 <= rate
    ensures Pricing.MonthlyFee(10_000 * metres, rate) == metres * rate
  {
    var fee := metres * rate;
    assert 2 * (10_000 * metres) * rate == 20_000 * fee;
    assert 1 * rate <= metres * rate;
  }

  /** Any volume costs the nearest IDR to that, and 50 000 at least. */
  lemma VolumesCostInProportion(zone: Zone, volume: int)
    requires 1 <= volume
    ensures var fee := Pricing.MonthlyFee(volume, Pricing.RatePerM3(zone));
      && 50_000 <= fee
      && (fee == 50_000 || -5_000 < 10_000 * fee - volume * ZoneRate(zone) <= 5_000)
      && (fee == 50_000 ==> volume * ZoneRate(zone) < 500_005_000)
  {
  }

  /** A unit measure of a metre each way is a cubic metre, and any other the nearest 0.0001 m3. */
  lemma DimensionsMakeVolume(length: int, width: int, height: int)
    requires 0 < length && 0 < width && 0 < height
    ensures -50_000_000 <= 100_000_000 * Pricing.UnitVolume(length, width, height) - length * width * height
        <= 50_000_000
    ensures length == width == height == 10_000 ==> Pricing.UnitVolume(length, width, height) == 10_000
  {
  }

  /** Renting is accepted from anyone but drivers, for a known facility, and issues one unpaid invoice of
      all its months, due in fourteen days. */
  lemma RentingIsAccepted(st: State, call: Call)
    requires call.request.DoRentSpace?
    ensures Apply(st, call).Accepted?
      <==> !call.actor.role.Driver? && call.request.rent.warehouse in st.houses && call.request.id !in st.invoices
  {
  }

  lemma RentingIssuesItsInvoice(st: State, call: Call)
    requires call.request.DoRentSpace? && Apply(st, call).Accepted?
    ensures var r, after := call.request, After(st, call).invoices;
      && r.id in after && after - {r.id} == st.invoices
      && var inv := after[r.id];
      && inv.customer == call.actor.id && inv.warehouse == r.rent.warehouse && inv.zone == r.rent.zone
      && inv.volume == r.rent.volume && inv.months == r.rent.months
      && inv.issued == r.start && inv.due == r.start + 1_209_600_000
      && inv.status.Unpaid? && inv.payments == [] && inv.penaltyFee == 0 && inv.totalAmount == inv.subtotal
      && (r.rent.volume % 10_000 == 0 ==>
            inv.subtotal == 100 * (r.rent.volume / 10_000 * ZoneRate(r.rent.zone)) * r.rent.months)
  {
    var rent := call.request.rent;
    if rent.volume % 10_000 == 0 {
      CubicMetresCostTheRate(rent.zone, rent.volume / 10_000);
      assert 10_000 * (rent.volume / 10_000) == rent.volume;
      TotalOf(Pricing.MonthlyFee(rent.volume, Pricing.RatePerM3(rent.zone)), rent.months);
    }
  }

  lemma TotalOf(fee: int, months: int)
    ensures 100 * (fee * months) == 100 * fee * months
  {
  }

  // ---- changing the rented warehouse ----

  /** A change is accepted exactly from anyone but drivers, between known facilities to another, active
      one, with something there to move and nothing that has come in. */
  lemma ChangeIsAccepted(st: State, call: Call)
    requires call.request.DoChangeWarehouse?
    ensures var c, source, target := call.actor.id, call.request.source, call.request.target;
      Apply(st, call).Accepted?
      <==> && !call.actor.role.Driver? && source != target && source in st.houses && target in st.houses
           && st.houses[target].active
           && (forall g :: g in st.goods && st.goods[g].owner == c && st.goods[g].warehouse == source ==>
                 NotYetIn(st.goods[g].status))
           && (!NoRental(st.invoices, c, source)
               || exists g :: g in st.goods && st.goods[g].owner == c && st.goods[g].warehouse == source)
  {
    var c, source := call.actor.id, call.request.source;
    if !NoRental(st.invoices, c, source) {
      var i :| i in st.invoices && IsRental(st.invoices[i], c, source);
      assert i in Rentals(st.invoices, c, source);
    } else {
      assert Rentals(st.invoices, c, source) == map[];
    }
    if OwnedIn(st.goods, c, source) != {} {
      var g :| g in OwnedIn(st.goods, c, source);
    }
    assert forall g :: g in OwnedIn(st.goods, c, source) <==>
      g in st.goods && st.goods[g].owner == c && st.goods[g].warehouse == source;
  }

  /** Not inspected yet, and never stored: still before the dock, or cancelled. */
  predicate NotYetIn(s: GoodsStatus) {
    s.Draft? || s.PendingPickup? || s.InTransitInbound? || s.Cancelled?
  }

  /** Afterwards the customer has neither rentals nor waiting goods at the source, and what stays there is
      on its way or cancelled; nothing else moves. */
  lemma ChangeLeavesNothingWaiting(st: State, call: Call)
    requires call.request.DoChangeWarehouse? && Apply(st, call).Accepted?
    ensures var c, source, target, after := call.actor.id, call.request.source, call.request.target, After(st, call);
      && NoRental(after.invoices, c, source)
      && after.goods.Keys == st.goods.Keys && after.invoices.Keys == st.invoices.Keys
      && (forall g :: g in after.goods && after.goods[g].owner == c && after.goods[g].warehouse == source ==>
            after.goods[g].status.InTransitInbound? || after.goods[g].status.Cancelled?)
      && (forall g :: g in st.goods ==>
            after.goods[g] == st.goods[g]
            || (after.goods[g] == st.goods[g].(warehouse := target) && st.goods[g].owner == c))
  {
  }

  // ---- paying ----

  /** A payment is accepted exactly from the customer or an Admin, for an invoice neither paid, cancelled
      nor under review, and of what it owes now: the subtotal, and once it is due 5% for each week begun. */
  lemma PaymentIsAccepted(st: State, call: Call)
    requires call.request.DoPay?
    requires call.request.id in st.invoices ==>
      0 <= st.invoices[call.request.id].subtotal && st.invoices[call.request.id].subtotal % 100 == 0
    ensures Apply(st, call).Accepted?
      <==> && call.request.id in st.invoices
           && var inv := st.invoices[call.request.id];
           && (call.actor.role.Customer? ==> inv.customer == call.actor.id)
           && (inv.status.Unpaid? || inv.status.Overdue? || inv.status.PendingVerification?)
           && (forall k :: 0 <= k < |inv.payments| ==> !inv.payments[k].status.UnderReview?)
           && call.request.amount == inv.subtotal + inv.subtotal / 20 * WeeksBegun(call.now - inv.due)
  {
    if call.request.id in st.invoices && !st.invoices[call.request.id].status.Paid?
       && !st.invoices[call.request.id].status.Cancelled? {
      OwedNow(st.invoices[call.request.id], call.now);
    }
  }

  /** It is recorded as the newest payment, under review, and the invoice waits for the verdict. */
  lemma PaymentIsRecorded(st: State, call: Call)
    requires call.request.DoPay? && Apply(st, call).Accepted?
    ensures var id, after := call.request.id, After(st, call).invoices;
      && id in after && after - {id} == st.invoices - {id}
      && after[id].status.PendingPayment? && after[id].totalAmount == call.request.amount
      && after[id].payments == [Payment(call.request.amount, UnderReview)] + st.invoices[id].payments
      && after[id].subtotal == st.invoices[id].subtotal && after[id].due == st.invoices[id].due
  {
  }

  /** A verdict is accepted exactly from an Admin on a known invoice. It makes it PAID, or OVERDUE once it is
      due and UNPAID before, and leaves every figure of it as it was. */
  lemma VerdictIsAccepted(st: State, call: Call)
    requires call.request.DoVerify?
    ensures Apply(st, call).Accepted? <==> call.actor.role.Admin? && call.request.id in st.invoices
    ensures Apply(st, call).Accepted? ==>
      var id, after := call.request.id, After(st, call).invoices;
      && id in after && after - {id} == st.invoices - {id}
      && after[id] == st.invoices[id].(status := after[id].status, payments := after[id].payments)
      && (call.request.verdict.Verify? ==> after[id].status.Paid?)
      && (call.request.verdict.Reject? ==>
            after[id].status == if call.now <= st.invoices[id].due then Unpaid else Overdue)
  {
  }

  /** It settles the newest payment under review, as verified or rejected, and no other. */
  lemma VerdictSettlesTheNewest(st: State, call: Call, k: nat)
    requires call.request.DoVerify? && Apply(st, call).Accepted?
    requires var payments := st.invoices[call.request.id].payments;
      k < |payments| && payments[k].status.UnderReview? && forall j :: 0 <= j < k ==> !payments[j].status.UnderReview?
    ensures var payments := st.invoices[call.request.id].payments;
      After(st, call).invoices[call.request.id].payments
      == payments[k := payments[k].(status := if call.request.verdict.Verify? then Verified else Rejected)]
  {
    ResolvedAt(st.invoices[call.request.id].payments, k, if call.request.verdict.Verify? then Verified else Rejected);
  }

  /** Weeks of 604 800 000 ms that have begun after the due date. */
  function WeeksBegun(delay: int): int {
    if delay <= 0 then 0 else (delay - 1) / 604_800_000 + 1
  }

  lemma OwedNow(inv: Invoice, now: int)
    requires 0 <= inv.subtotal && inv.subtotal % 100 == 0 && !inv.status.Paid? && !inv.status.Cancelled?
    ensures ChargeAt(inv, now).totalAmount == inv.subtotal + inv.subtotal / 20 * WeeksBegun(now - inv.due)
  {
    if inv.due < now {
      Pricing.NestedCeilings(now - inv.due);
      Pricing.PenaltyIsExact(inv.subtotal, Pricing.OverdueWeeks(now - inv.due));
    }
  }

  // ---- deleting an account ----

  /** Deleting is accepted exactly from another Admin, of a known account. */
  lemma DeletionIsAccepted(st: State, call: Call)
    requires call.request.DoDeleteUser?
    ensures Apply(st, call).Accepted?
      <==> call.actor.role.Admin? && call.actor.id != call.request.id && call.request.id in st.users
  {
  }

  /** It leaves no goods, orders or invoices of the account, and no order it drives; everybody else's goods
      and invoices are as before, and their orders but for its goods and driver. */
  lemma DeletionLeavesNothing(st: State, call: Call)
    requires call.request.DoDeleteUser? && Apply(st, call).Accepted?
    ensures var c, after := call.request.id, After(st, call);
      && after.users == st.users - {c}
      && (forall g :: g in after.goods <==> g in st.goods && st.goods[g].owner != c)
      && (forall g :: g in after.goods ==> after.goods[g] == st.goods[g])
      && (forall i :: i in after.invoices <==> i in st.invoices && st.invoices[i].customer != c)
      && (forall i :: i in after.invoices ==> after.invoices[i] == st.invoices[i])
  {
  }

  lemma DeletionLeavesNoOrder(st: State, call: Call)
    requires call.request.DoDeleteUser? && Apply(st, call).Accepted?
    ensures var c, after := call.request.id, After(st, call);
      && (forall o :: o in after.orders <==> o in st.orders && st.orders[o].customer != c)
      && (forall o :: o in after.orders ==>
            && after.orders[o].driver == (if st.orders[o].driver == Some(c) then None else st.orders[o].driver)
            && after.orders[o].status == st.orders[o].status && after.orders[o].vehicle == st.orders[o].vehicle
            && (forall g :: g in after.orders[o].items ==>
                  g in st.orders[o].items && after.orders[o].items[g] == st.orders[o].items[g])
            && (forall g :: g in st.orders[o].items && !(g in st.goods && st.goods[g].owner == c) ==>
                  g in after.orders[o].items))
  {
  }
}
