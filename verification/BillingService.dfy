/** The invoice requests as they run. */
module BillingRequests {
  import opened Domain
  import opened Tenancy
  import opened Tables
  import opened BillingTheorems

  /** The invoices a role may list: a customer its own, an Admin one customer's or all. */
  predicate Visible(inv: Invoice, named: Option<Id>, actor: Actor) {
    match actor.role
    case Customer => inv.customer == actor.id
    case Admin => named.Some? ==> inv.customer == named.value
    case Driver => true
  }

  class BillingService {
    const db: Database

    constructor (db: Database)
      ensures this.db == db
    {
      this.db := db;
    }

    /** The visible invoices the `where` clause selects; where dates are in order, those whose
        computed status is the one asked for. */
    method FindAll(query: Option<InvoiceStatus>, named: Option<Id>, actor: Actor, now: int) returns (found: set<Id>)
      ensures found == set i | i in db.invoices && Visible(db.invoices[i], named, actor)
                               && (query.Some? ==> Selected(db.invoices[i], query.value, now))
      ensures actor.role.Customer? ==> forall i :: i in found ==> db.invoices[i].customer == actor.id
      ensures query.Some? ==> forall i :: i in db.invoices && Dated(db.invoices[i], now) ==>
        (i in found <==>
          Visible(db.invoices[i], named, actor) && ChargeAt(db.invoices[i], now).status == query.value)
    {
      found := set i | i in db.invoices && Visible(db.invoices[i], named, actor);
      if query.Some? {
        forall i | i in db.invoices && Dated(db.invoices[i], now)
          ensures Selected(db.invoices[i], query.value, now) <==> ChargeAt(db.invoices[i], now).status == query.value
        {
          FilterAgrees(db.invoices[i], now);
        }
        found := set i | i in found && Selected(db.invoices[i], query.value, now);
      }
    }

    /** Where the newest payment under review is, or the number of payments. */
    method FindUnderReview(payments: seq<Payment>) returns (k: nat)
      ensures k <= |payments| && forall j :: 0 <= j < k ==> payments[j].status != UnderReview
      ensures k < |payments| ==> payments[k].status == UnderReview
      ensures k < |payments| <==> AnyUnderReview(payments)
    {
      k := 0;
      while k < |payments| && payments[k].status != UnderReview
        invariant k <= |payments| && forall j :: 0 <= j < k ==> payments[j].status != UnderReview
      {
        k := k + 1;
      }
    }

    method PayInvoice(id: Id, amount: int, actor: Actor, now: int) returns (ok: bool)
      modifies db
      ensures Does(Tenancy.PayInvoice(old(db.Snapshot()), id, amount, actor, now), ok,
                   old(db.Snapshot()), db.Snapshot())
    {
      if id !in db.invoices { return false; }
      var inv := db.invoices[id];
      if actor.role.Customer? && inv.customer != actor.id { return false; }
      if inv.status.Paid? || inv.status.Cancelled? { return false; }
      var active := FindUnderReview(inv.payments);
      if active < |inv.payments| || inv.status.PendingPayment? { return false; }
      var charge := CalculatePenalty(inv.subtotal, inv.due, inv.status, now);
      if amount != charge.totalAmount { return false; }
      var row := inv.(payments := [Payment(charge.totalAmount, UnderReview)] + inv.payments);
      row := row.(status := PendingPayment, penaltyFee := charge.penaltyFee, totalAmount := charge.totalAmount);
      db.invoices := db.invoices[id := row];
      ok := true;
    }

    method VerifyPayment(id: Id, verdict: Verdict, actor: Actor, now: int) returns (ok: bool)
      modifies db
      ensures Does(Tenancy.VerifyPayment(old(db.Snapshot()), id, verdict, actor, now), ok,
                   old(db.Snapshot()), db.Snapshot())
    {
      if !actor.role.Admin? || id !in db.invoices { return false; }
      var inv := db.invoices[id];
      var k := FindUnderReview(inv.payments);
      var settled := if verdict.Verify? then Verified else Rejected;
      ResolvedAt(inv.payments, k, settled);
      if k < |inv.payments| {
        db.invoices := db.invoices[id := inv.(payments := inv.payments[k := inv.payments[k].(status := settled)])];
      }
      var status := if verdict.Verify? then Paid else if inv.due < now then Overdue else Unpaid;
      db.invoices := db.invoices[id := db.invoices[id].(status := status)];
      ok := true;
    }
  }
}
