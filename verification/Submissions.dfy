/** Payments and verdicts at the same time: `payInvoice` and `verifyPayment` read the invoice before
    their transaction, which does not look at it again. Everything else can come in between. */
module Submissions {
  import opened Domain
  import opened Tenancy
  import opened System
  import opened BillingTheorems

  /** A request past its reads: a payment and what it will write, or a verdict and the payment it
      picked, counted from the oldest. */
  datatype Work =
    | Paying(invoice: Id, charge: Charge)
    | Judging(invoice: Id, picked: Option<nat>, verdict: Verdict, now: int)

  datatype Sessions = Sessions(db: State, open: map<Id, Work>)

  datatype Step =
    | Submit(t: Id, invoice: Id, amount: int, actor: Actor, now: int)
    | Judge(t: Id, invoice: Id, verdict: Verdict, actor: Actor, now: int)
    | Commit(t: Id)
    | Abort(t: Id)
    | Other(call: Call)

  /** The newest payment under review. */
  function NewestUnderReview(payments: seq<Payment>): (k: Option<nat>)
    ensures k.Some? ==> k.value < |payments|
  {
    if payments == [] then None
    else if payments[0].status == UnderReview then Some(|payments| - 1)
    else NewestUnderReview(payments[1..])
  }

  function At(payments: seq<Payment>, age: nat): nat
    requires age < |payments|
  {
    |payments| - 1 - age
  }

  function SettledTo(verdict: Verdict): PaymentStatus {
    if verdict.Verify? then Verified else Rejected
  }

  /** The picked payment is settled and the invoice updated, whatever has become of them. */
  function JudgedAt(inv: Invoice, picked: Option<nat>, verdict: Verdict, now: int): Invoice
    requires picked.Some? ==> picked.value < |inv.payments|
  {
    var status := if verdict.Verify? then Paid else if inv.due < now then Overdue else Unpaid;
    if picked.None? then inv.(status := status) else
      var k := At(inv.payments, picked.value);
      inv.(status := status, payments := inv.payments[k := inv.payments[k].(status := SettledTo(verdict))])
  }

  /** A new rental gets an id that no request under way refers to. */
  predicate FreshId(ss: Sessions, call: Call) {
    call.request.DoRentSpace? ==> forall t :: t in ss.open ==> ss.open[t].invoice != call.request.id
  }

  /** The invoice is there, and still has the payment that was picked: payments are only added. */
  predicate Committable(db: State, work: Work) {
    && work.invoice in db.invoices
    && (work.Judging? && work.picked.Some? ==> work.picked.value < |db.invoices[work.invoice].payments|)
  }

  predicate Can(ss: Sessions, step: Step) {
    match step
    case Submit(t, i, amount, actor, now) => t !in ss.open && MayPay(ss.db, i, amount, actor, now)
    case Judge(t, i, _, actor, _) => t !in ss.open && actor.role.Admin? && i in ss.db.invoices
    case Commit(t) => t in ss.open && Committable(ss.db, ss.open[t])
    case Abort(t) => t in ss.open
    case Other(call) => FreshId(ss, call) && !call.request.DoPay? && !call.request.DoVerify?
  }

  function Row(inv: Invoice, work: Work): Invoice
    requires work.Judging? && work.picked.Some? ==> work.picked.value < |inv.payments|
  {
    match work
    case Paying(_, charge) => Awaiting(inv, charge)
    case Judging(_, picked, verdict, now) => JudgedAt(inv, picked, verdict, now)
  }

  function Written(db: State, work: Work): State
    requires Committable(db, work)
  {
    db.(invoices := db.invoices[work.invoice := Row(db.invoices[work.invoice], work)])
  }

  ghost function Next(ss: Sessions, step: Step): Sessions {
    if !Can(ss, step) then ss else
      match step
      case Submit(t, i, _, _, now) => ss.(open := ss.open[t := Paying(i, ChargeAt(ss.db.invoices[i], now))])
      case Judge(t, i, verdict, _, now) =>
        ss.(open := ss.open[t := Judging(i, NewestUnderReview(ss.db.invoices[i].payments), verdict, now)])
      case Commit(t) => Sessions(Written(ss.db, ss.open[t]), ss.open - {t})
      case Abort(t) => ss.(open := ss.open - {t})
      case Other(call) => ss.(db := After(ss.db, call))
  }

  // ---- without a pause it is the atomic request ----

  lemma {:induction false} PickedIsResolved(payments: seq<Payment>, s: PaymentStatus)
    ensures var picked := NewestUnderReview(payments);
      Resolved(payments, s)
      == if picked.None? then payments
         else payments[At(payments, picked.value) := payments[At(payments, picked.value)].(status := s)]
  {
    if payments != [] {
      PickedIsResolved(payments[1..], s);
      assert payments == [payments[0]] + payments[1..];
    }
  }

  /** A verdict whose transaction follows its reads at once is `verifyPayment` in one piece. */
  lemma JudgedAtOnce(inv: Invoice, verdict: Verdict, now: int)
    ensures JudgedAt(inv, NewestUnderReview(inv.payments), verdict, now) == Judged(inv, verdict, now)
  {
    PickedIsResolved(inv.payments, SettledTo(verdict));
  }

  // ---- what a commit needs ----

  /** What a payment will write still adds up, and what a verdict picked is still there. */
  predicate Matches(db: State, work: Work) {
    work.invoice in db.invoices ==>
      var inv := db.invoices[work.invoice];
      match work
      case Paying(_, charge) => charge.totalAmount == inv.subtotal + charge.penaltyFee
      case Judging(_, picked, _, _) => picked.Some? ==> picked.value < |inv.payments|
  }

  ghost predicate Matching(ss: Sessions) {
    forall t :: t in ss.open ==> Matches(ss.db, ss.open[t])
  }

  /** For a payment the invoice is still open. For a verdict: an invoice awaiting review still awaits
      that of the picked payment; a paid one is verified again or unverified, and an unpaid one is
      verified by a payment of its total. */
  predicate Applies(inv: Invoice, work: Work)
    requires work.Judging? && work.picked.Some? ==> work.picked.value < |inv.payments|
  {
    match work
    case Paying(_, _) => !inv.status.PendingPayment? && !inv.status.Paid?
    case Judging(_, picked, verdict, _) =>
      var payment := if picked.Some? then Some(inv.payments[At(inv.payments, picked.value)]) else None;
      && (inv.status.PendingPayment? ==> payment.Some? && payment.value.status.UnderReview?)
      && (match verdict
          case Reject => inv.status.Paid? ==> payment.Some? && payment.value.status.Verified?
          case Verify =>
            if inv.status.Paid? then payment.Some? ==> payment.value.status.Verified?
            else payment.Some? && payment.value.amount == inv.totalAmount)
  }

  ghost predicate StillApplies(ss: Sessions, step: Step) {
    step.Commit? && Can(ss, step) ==> Applies(ss.db.invoices[ss.open[step.t].invoice], ss.open[step.t])
  }

  predicate InOrder(inv: Invoice) {
    Reviewed(inv) && Cleared(inv)
  }

  lemma PayingAndOrder(inv: Invoice, charge: Charge)
    requires InOrder(inv) && charge.totalAmount == inv.subtotal + charge.penaltyFee
    ensures InOrder(Awaiting(inv, charge)) <==> !inv.status.PendingPayment? && !inv.status.Paid?
  {
    var after := Awaiting(inv, charge);
    assert after.payments[1..] == inv.payments;
    NoneCounted(inv.payments, UnderReview);
    NoneCounted(inv.payments, Verified);
  }

  /** Changing one payment's status moves one count down and one up. */
  lemma {:induction false} TallyAt(payments: seq<Payment>, k: nat, to: PaymentStatus, s: PaymentStatus)
    requires k < |payments|
    ensures Tally(payments[k := payments[k].(status := to)], s)
         == Tally(payments, s) - (if payments[k].status == s then 1 else 0) + (if to == s then 1 else 0)
  {
    var after := payments[k := payments[k].(status := to)];
    if k == 0 {
      assert after[1..] == payments[1..];
    } else {
      TallyAt(payments[1..], k - 1, to, s);
      assert after[1..] == payments[1..][k - 1 := payments[k].(status := to)];
    }
  }

  lemma AmountsAt(payments: seq<Payment>, k: nat, to: PaymentStatus, s: PaymentStatus, amount: int)
    requires k < |payments| && AllOf(payments, s, amount)
    ensures AllOf(payments[k := payments[k].(status := to)], s, amount) <==> (to == s ==> payments[k].amount == amount)
  {
    var after := payments[k := payments[k].(status := to)];
    assert after[k] in after;
    forall p | p in after && p.status == s && (to == s ==> payments[k].amount == amount) ensures p.amount == amount {
      var j :| 0 <= j < |after| && after[j] == p;
      assert j != k ==> payments[j] in payments;
    }
  }

  lemma SettlingAndReviews(inv: Invoice, age: nat, verdict: Verdict, now: int)
    requires InOrder(inv) && age < |inv.payments|
    ensures Reviewed(JudgedAt(inv, Some(age), verdict, now))
       <==> (inv.status.PendingPayment? ==> inv.payments[At(inv.payments, age)].status.UnderReview?)
  {
    var k := At(inv.payments, age);
    TallyAt(inv.payments, k, SettledTo(verdict), UnderReview);
    AmountsAt(inv.payments, k, SettledTo(verdict), UnderReview, inv.totalAmount);
    CountedIn(inv.payments, k, UnderReview);
  }

  lemma {:induction false} CountedIn(payments: seq<Payment>, k: nat, s: PaymentStatus)
    requires k < |payments|
    ensures payments[k].status == s ==> 0 < Tally(payments, s)
  {
    NoneCounted(payments, s);
    assert payments[k] in payments;
  }

  lemma SettlingAndClearance(inv: Invoice, age: nat, verdict: Verdict, now: int)
    requires InOrder(inv) && age < |inv.payments|
    ensures var payment := inv.payments[At(inv.payments, age)];
      Cleared(JudgedAt(inv, Some(age), verdict, now))
      <==> (if verdict.Reject? || inv.status.Paid? then inv.status.Paid? ==> payment.status.Verified?
            else payment.amount == inv.totalAmount)
  {
    var k := At(inv.payments, age);
    TallyAt(inv.payments, k, SettledTo(verdict), Verified);
    AmountsAt(inv.payments, k, SettledTo(verdict), Verified, inv.totalAmount);
    CountedIn(inv.payments, k, Verified);
    assert inv.payments[k] in inv.payments;
  }

  lemma JudgingAndOrder(inv: Invoice, work: Work)
    requires InOrder(inv) && work.Judging? && (work.picked.Some? ==> work.picked.value < |inv.payments|)
    ensures InOrder(JudgedAt(inv, work.picked, work.verdict, work.now)) <==> Applies(inv, work)
  {
    if work.picked.Some? {
      SettlingAndReviews(inv, work.picked.value, work.verdict, work.now);
      SettlingAndClearance(inv, work.picked.value, work.verdict, work.now);
    }
  }

  lemma CommitAndOrder(ss: Sessions, step: Step)
    requires PaymentsInOrder(ss.db) && Matching(ss) && step.Commit? && Can(ss, step)
    ensures PaymentsInOrder(Next(ss, step).db) <==> StillApplies(ss, step)
  {
    var work := ss.open[step.t];
    var inv := ss.db.invoices[work.invoice];
    assert Matches(ss.db, work) && InOrder(inv);
    if work.Paying? {
      PayingAndOrder(inv, work.charge);
    } else {
      JudgingAndOrder(inv, work);
    }
    RowDecides(ss.db, work.invoice, Row(inv, work));
  }

  lemma RowDecides(db: State, i: Id, row: Invoice)
    requires PaymentsInOrder(db)
    ensures PaymentsInOrder(db.(invoices := db.invoices[i := row])) <==> InOrder(row)
  {
    var after := db.invoices[i := row];
    assert after[i] == row;
  }

  /** Every step keeps payments in order, a commit exactly when it still applies. */
  lemma StepAndOrder(ss: Sessions, step: Step)
    requires PaymentsInOrder(ss.db) && Matching(ss)
    ensures PaymentsInOrder(Next(ss, step).db) <==> StillApplies(ss, step)
  {
    if Can(ss, step) {
      match step
      case Commit(_) => CommitAndOrder(ss, step);
      case Other(call) => StepAndPayments(ss.db, call);
      case _ =>
    }
  }

  // ---- whole interleavings ----

  /** Requests keep the invoices there are as they were billed, and rentals come with new ids. */
  lemma RequestKeepsBills(st: State, c: Call)
    requires !c.request.DoPay? && !c.request.DoVerify?
    ensures forall i :: i in After(st, c).invoices && (c.request.DoRentSpace? ==> c.request.id != i) ==>
      i in st.invoices && SameBill(st.invoices[i], After(st, c).invoices[i])
  {
    if !IsBilling(c.request) {
      OthersKeepInvoices(st, c);
    }
  }

  lemma CommitKeepsMatching(ss: Sessions, t: Id)
    requires Matching(ss) && Can(ss, Commit(t))
    ensures Matching(Next(ss, Commit(t)))
  {
    var after := Next(ss, Commit(t));
    forall u | u in after.open ensures Matches(after.db, after.open[u]) {
      assert Matches(ss.db, ss.open[u]);
    }
  }

  lemma OtherKeepsMatching(ss: Sessions, call: Call)
    requires Matching(ss) && Can(ss, Other(call))
    ensures Matching(Next(ss, Other(call)))
  {
    var after := Next(ss, Other(call));
    RequestKeepsBills(ss.db, call);
    forall u | u in after.open ensures Matches(after.db, after.open[u]) {
      assert Matches(ss.db, ss.open[u]);
    }
  }

  lemma StepKeepsMatching(ss: Sessions, step: Step)
    requires Matching(ss)
    ensures Matching(Next(ss, step))
  {
    if Can(ss, step) {
      match step
      case Commit(t) => CommitKeepsMatching(ss, t);
      case Other(call) => OtherKeepsMatching(ss, call);
      case _ =>
        var after := Next(ss, step);
        assert after.db == ss.db;
        forall u | u in after.open && u in ss.open && after.open[u] == ss.open[u]
          ensures Matches(after.db, after.open[u])
        {
          assert Matches(ss.db, ss.open[u]);
        }
    }
  }

  ghost predicate InOrderThroughout(ss: Sessions, steps: seq<Step>)
    decreases |steps|
  {
    PaymentsInOrder(ss.db) && (steps == [] || InOrderThroughout(Next(ss, steps[0]), steps[1..]))
  }

  ghost predicate AllStillApply(ss: Sessions, steps: seq<Step>)
    decreases |steps|
  {
    steps == [] || (StillApplies(ss, steps[0]) && AllStillApply(Next(ss, steps[0]), steps[1..]))
  }

  /** In every interleaving of payments and verdicts with each other and with all other requests,
      PENDING_PAYMENT means one payment under review and PAID one verified payment of the total,
      throughout, exactly when every commit still applies to its invoice. */
  lemma {:induction false} SubmissionsAreExact(ss: Sessions, steps: seq<Step>)
    requires PaymentsInOrder(ss.db) && Matching(ss)
    ensures InOrderThroughout(ss, steps) <==> AllStillApply(ss, steps)
    decreases |steps|
  {
    if steps != [] {
      StepAndOrder(ss, steps[0]);
      StepKeepsMatching(ss, steps[0]);
      if StillApplies(ss, steps[0]) {
        SubmissionsAreExact(Next(ss, steps[0]), steps[1..]);
      }
    }
  }

  lemma AwaitingTwice(inv: Invoice, charge: Charge)
    requires Tally(inv.payments, UnderReview) == 0
    ensures Tally(Awaiting(Awaiting(inv, charge), charge).payments, UnderReview) == 2
  {
    var first := Awaiting(inv, charge);
    assert first.payments[1..] == inv.payments && Awaiting(first, charge).payments[1..] == first.payments;
  }

  lemma CommittedTwice(db: State, i: Id, charge: Charge)
    requires i in db.invoices
    ensures var both := Sessions(db, map[1 := Paying(i, charge), 2 := Paying(i, charge)]);
      Next(Next(both, Commit(1)), Commit(2)).db
      == db.(invoices := db.invoices[i := Awaiting(Awaiting(db.invoices[i], charge), charge)])
  {
  }

  /** Two submissions that pass their checks together leave two payments under review. */
  lemma SubmittedTwice(db: State, i: Id, amount: int, actor: Actor, now: int)
    requires PaymentsInOrder(db) && MayPay(db, i, amount, actor, now)
    ensures var one := Next(Sessions(db, map[]), Submit(1, i, amount, actor, now));
      var both := Next(one, Submit(2, i, amount, actor, now));
      var end := Next(Next(both, Commit(1)), Commit(2)).db;
      i in end.invoices && Tally(end.invoices[i].payments, UnderReview) == 2
  {
    var charge := ChargeAt(db.invoices[i], now);
    var both := Next(Next(Sessions(db, map[]), Submit(1, i, amount, actor, now)), Submit(2, i, amount, actor, now));
    assert both == Sessions(db, map[1 := Paying(i, charge), 2 := Paying(i, charge)]);
    AwaitingTwice(db.invoices[i], charge);
    CommittedTwice(db, i, charge);
  }
}
