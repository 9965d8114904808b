/** The payment protocol, the invoice status filter and the overdue penalty. */
module BillingTheorems {
  import opened Domain
  import opened Tenancy
  import opened System
  import Pricing

  // ---- invoices along a run ----

  /** Requests other than billing ones at most drop invoices or move their rental. */
  predicate InvoicesKept(invoices: map<Id, Invoice>, after: map<Id, Invoice>) {
    forall i :: i in after ==> i in invoices && after[i] == invoices[i].(warehouse := after[i].warehouse)
  }

  predicate IsBilling(r: Request) {
    r.DoRentSpace? || r.DoPay? || r.DoVerify?
  }

  lemma TenancyKeepsInvoices(st: State, c: Call)
    requires c.request.DoChangeWarehouse? || c.request.DoDeleteUser?
    ensures InvoicesKept(st.invoices, After(st, c).invoices)
  {
  }

  lemma GoodsStepsKeepInvoices(st: State, c: Call)
    requires c.request.DoRegister? || c.request.DoUpdateStatus? || c.request.DoTransferSlot? || c.request.DoReconcile?
    ensures After(st, c).invoices == st.invoices
  {
  }

  lemma OrderStepsKeepInvoices(st: State, c: Call)
    requires c.request.DoCreateOrder? || c.request.DoUpdateOrder? || c.request.DoReceive? || c.request.DoSubmitPod?
    ensures After(st, c).invoices == st.invoices
  {
  }

  lemma OthersKeepInvoices(st: State, c: Call)
    requires !IsBilling(c.request)
    ensures InvoicesKept(st.invoices, After(st, c).invoices)
  {
    match c.request
    case DoChangeWarehouse(_, _) => TenancyKeepsInvoices(st, c);
    case DoDeleteUser(_) => TenancyKeepsInvoices(st, c);
    case DoCreateOrder(_, _) => OrderStepsKeepInvoices(st, c);
    case DoUpdateOrder(_, _, _, _) => OrderStepsKeepInvoices(st, c);
    case DoReceive(_, _) => OrderStepsKeepInvoices(st, c);
    case DoSubmitPod(_) => OrderStepsKeepInvoices(st, c);
    case _ => GoodsStepsKeepInvoices(st, c);
  }

  // ---- payments ----

  function Tally(payments: seq<Payment>, s: PaymentStatus): nat {
    if payments == [] then 0 else (if payments[0].status == s then 1 else 0) + Tally(payments[1..], s)
  }

  predicate AllOf(payments: seq<Payment>, s: PaymentStatus, amount: int) {
    forall p :: p in payments && p.status == s ==> p.amount == amount
  }

  /** PENDING_PAYMENT means exactly one payment under review, of the stored total; otherwise none is. */
  predicate Reviewed(inv: Invoice) {
    && inv.totalAmount == inv.subtotal + inv.penaltyFee
    && Tally(inv.payments, UnderReview) == (if inv.status.PendingPayment? then 1 else 0)
    && AllOf(inv.payments, UnderReview, inv.totalAmount)
  }

  /** PAID means exactly one verified payment, of the stored total; otherwise none is. */
  predicate Cleared(inv: Invoice) {
    && Tally(inv.payments, Verified) == (if inv.status.Paid? then 1 else 0)
    && AllOf(inv.payments, Verified, inv.totalAmount)
  }

  lemma {:induction false} NoneCounted(payments: seq<Payment>, s: PaymentStatus)
    ensures Tally(payments, s) == 0 <==> forall p :: p in payments ==> p.status != s
  {
    if payments != [] {
      NoneCounted(payments[1..], s);
      if Tally(payments, s) == 0 {
        forall p | p in payments ensures p.status != s {
          if p != payments[0] { assert p in payments[1..]; }
        }
      }
    }
  }

  lemma ReviewIsCounted(payments: seq<Payment>)
    ensures AnyUnderReview(payments) <==> 0 < Tally(payments, UnderReview)
  {
    NoneCounted(payments, UnderReview);
    if 0 < Tally(payments, UnderReview) {
      var p :| p in payments && p.status.UnderReview?;
      var k :| 0 <= k < |payments| && payments[k] == p;
    }
  }

  /** Settling the first payment under review is settling it where it stands. */
  lemma {:induction false} ResolvedAt(payments: seq<Payment>, k: nat, s: PaymentStatus)
    requires k <= |payments| && forall j :: 0 <= j < k ==> payments[j].status != UnderReview
    requires k < |payments| ==> payments[k].status == UnderReview
    ensures Resolved(payments, s) == if k < |payments| then payments[k := payments[k].(status := s)] else payments
    decreases k
  {
    if payments != [] {
      if 0 < k { ResolvedAt(payments[1..], k - 1, s); }
      assert payments == [payments[0]] + payments[1..];
    }
  }

  /** Settling a payment moves it from under review to its verdict, and touches nothing else. */
  lemma {:induction false} ResolvedCounts(payments: seq<Payment>, to: PaymentStatus)
    requires !to.UnderReview?
    ensures var after := Resolved(payments, to); var one := if 0 < Tally(payments, UnderReview) then 1 else 0;
      && Tally(after, UnderReview) == Tally(payments, UnderReview) - one
      && Tally(after, to) == Tally(payments, to) + one
      && forall s: PaymentStatus :: !s.UnderReview? && s != to ==> Tally(after, s) == Tally(payments, s)
  {
    if payments != [] {
      var after, rest := Resolved(payments, to), payments[1..];
      if payments[0].status.UnderReview? {
        assert after[0] == payments[0].(status := to) && after[1..] == rest;
      } else {
        ResolvedCounts(rest, to);
        assert after[0] == payments[0] && after[1..] == Resolved(rest, to);
      }
    }
  }

  lemma {:induction false} ResolvedPayment(payments: seq<Payment>, to: PaymentStatus, p: Payment)
    requires p in Resolved(payments, to)
    ensures p in payments || (p.status == to && p.(status := UnderReview) in payments)
  {
    if payments[0].status.UnderReview? {
      assert p == payments[0].(status := to) || p in payments[1..];
    } else if p != payments[0] {
      assert p in Resolved(payments[1..], to);
      ResolvedPayment(payments[1..], to, p);
    }
  }

  lemma ResolvedAmounts(payments: seq<Payment>, to: PaymentStatus, s: PaymentStatus, amount: int)
    requires !to.UnderReview? && AllOf(payments, UnderReview, amount) && AllOf(payments, s, amount)
    ensures AllOf(Resolved(payments, to), s, amount)
  {
    forall p | p in Resolved(payments, to) && p.status == s ensures p.amount == amount {
      ResolvedPayment(payments, to, p);
    }
  }

  lemma AwaitingIsReviewed(inv: Invoice, now: int)
    requires Reviewed(inv) && !inv.status.PendingPayment? && !inv.status.Paid? && !inv.status.Cancelled?
    ensures Reviewed(Awaiting(inv, ChargeAt(inv, now)))
    ensures Cleared(inv) ==> Cleared(Awaiting(inv, ChargeAt(inv, now)))
  {
    var after := Awaiting(inv, ChargeAt(inv, now));
    assert after.payments[1..] == inv.payments;
    NoneCounted(inv.payments, UnderReview);
    NoneCounted(inv.payments, Verified);
  }

  /** The exact condition under which a verdict keeps PAID meaningful: a payment is under review,
      or the verdict would not change what the invoice already says. */
  predicate VerdictApplies(inv: Invoice, verdict: Verdict) {
    AnyUnderReview(inv.payments) || verdict.Verify? == inv.status.Paid?
  }

  lemma JudgedInvoice(inv: Invoice, verdict: Verdict, now: int)
    requires Reviewed(inv)
    ensures Reviewed(Judged(inv, verdict, now))
    ensures Cleared(inv) ==> (Cleared(Judged(inv, verdict, now)) <==> VerdictApplies(inv, verdict))
  {
    var to := if verdict.Verify? then Verified else Rejected;
    ResolvedCounts(inv.payments, to);
    ReviewIsCounted(inv.payments);
    ResolvedAmounts(inv.payments, to, UnderReview, inv.totalAmount);
    if Cleared(inv) { ResolvedAmounts(inv.payments, to, Verified, inv.totalAmount); }
  }

  ghost predicate AllReviewed(st: State) {
    forall i :: i in st.invoices ==> Reviewed(st.invoices[i])
  }

  ghost predicate AllCleared(st: State) {
    forall i :: i in st.invoices ==> Cleared(st.invoices[i])
  }

  ghost predicate VerdictGuard(st: State, c: Call) {
    c.request.DoVerify? && Apply(st, c).Accepted? ==> VerdictApplies(st.invoices[c.request.id], c.request.verdict)
  }

  lemma RentAndPayments(st: State, c: Call)
    requires AllReviewed(st) && c.request.DoRentSpace?
    ensures AllReviewed(After(st, c)) && (AllCleared(st) ==> AllCleared(After(st, c)))
  {
  }

  lemma PayAndPayments(st: State, c: Call)
    requires AllReviewed(st) && c.request.DoPay?
    ensures AllReviewed(After(st, c)) && (AllCleared(st) ==> AllCleared(After(st, c)))
  {
    if MayPay(st, c.request.id, c.request.amount, c.actor, c.now) {
      AwaitingIsReviewed(st.invoices[c.request.id], c.now);
    }
  }

  lemma VerdictAndPayments(st: State, c: Call)
    requires AllReviewed(st) && c.request.DoVerify?
    ensures AllReviewed(After(st, c)) && (AllCleared(st) ==> (AllCleared(After(st, c)) <==> VerdictGuard(st, c)))
  {
    if Apply(st, c).Accepted? {
      var id := c.request.id;
      JudgedInvoice(st.invoices[id], c.request.verdict, c.now);
      assert After(st, c).invoices == st.invoices[id := Judged(st.invoices[id], c.request.verdict, c.now)];
      if AllCleared(After(st, c)) { assert Cleared(After(st, c).invoices[id]); }
    }
  }

  /** Every request keeps every invoice reviewed; PAID stays meaningful exactly under the guard. */
  lemma StepAndPayments(st: State, c: Call)
    requires AllReviewed(st)
    ensures AllReviewed(After(st, c))
    ensures AllCleared(st) ==> (AllCleared(After(st, c)) <==> VerdictGuard(st, c))
  {
    if !IsBilling(c.request) {
      OthersKeepInvoices(st, c);
    } else if c.request.DoRentSpace? {
      RentAndPayments(st, c);
    } else if c.request.DoPay? {
      PayAndPayments(st, c);
    } else {
      VerdictAndPayments(st, c);
    }
  }

  ghost predicate PaymentsInOrder(st: State) {
    AllReviewed(st) && AllCleared(st)
  }

  /** In every reachable state PENDING_PAYMENT means one payment under review of the stored total. */
  lemma ReviewsAlongRuns(st: State, calls: seq<Call>)
    requires AllReviewed(st)
    ensures AllReviewed(Run(st, calls))
  {
    forall s, c | AllReviewed(s) && Always(s, c) ensures AllReviewed(After(s, c)) {
      StepAndPayments(s, c);
    }
    Unguarded(st, calls);
    RunKeeps(AllReviewed, Always, st, calls);
  }

  /** Whatever rejections and resubmissions came before: while verdicts apply, PAID means exactly
      one verified payment of the stored total. */
  lemma PaidMeansVerifiedOnce(st: State, calls: seq<Call>)
    requires PaymentsInOrder(st) && Guarded(st, calls, VerdictGuard)
    ensures PaymentsInOrder(Run(st, calls))
  {
    forall s, c | PaymentsInOrder(s) && VerdictGuard(s, c) ensures PaymentsInOrder(After(s, c)) {
      StepAndPayments(s, c);
    }
    RunKeeps(PaymentsInOrder, VerdictGuard, st, calls);
  }

  /** A rejection is accepted even on a PAID invoice, and reopens it. */
  ghost predicate Reopens(st: State, c: Call, i: Id) {
    c.request.DoVerify? && c.request.id == i && c.request.verdict.Reject? && Apply(st, c).Accepted?
  }

  /** The invoice is the same but for the warehouse its rental may have been moved to. */
  predicate SameBill(before: Invoice, after: Invoice) {
    after == before.(warehouse := after.warehouse)
  }

  lemma JudgedPaid(inv: Invoice, verdict: Verdict, now: int)
    requires Reviewed(inv) && inv.status.Paid?
    ensures Judged(inv, verdict, now) == inv <==> verdict.Verify?
  {
    NothingToResolve(inv.payments, Verified);
  }

  lemma VerdictAndPaid(st: State, c: Call, i: Id)
    requires AllReviewed(st) && c.request.DoVerify? && i in st.invoices && st.invoices[i].status.Paid?
    ensures i in After(st, c).invoices
    ensures SameBill(st.invoices[i], After(st, c).invoices[i]) <==> !Reopens(st, c, i)
  {
    if c.request.id == i {
      JudgedPaid(st.invoices[i], c.request.verdict, c.now);
    }
  }

  lemma IssuingLeavesPaid(st: State, c: Call, i: Id)
    requires (c.request.DoPay? || c.request.DoRentSpace?) && i in st.invoices && st.invoices[i].status.Paid?
    ensures i in After(st, c).invoices && After(st, c).invoices[i] == st.invoices[i]
  {
    if c.request.DoPay? {
      assert c.request.id == i ==> !MayPay(st, i, c.request.amount, c.actor, c.now);
    }
  }

  lemma NoDeletionKeepsInvoice(st: State, c: Call, i: Id)
    requires !IsBilling(c.request) && i in st.invoices
    requires c.request.DoDeleteUser? ==> c.request.id != st.invoices[i].customer
    ensures i in After(st, c).invoices
  {
    match c.request
    case DoChangeWarehouse(_, _) =>
    case DoDeleteUser(_) =>
    case DoCreateOrder(_, _) => OrderStepsKeepInvoices(st, c);
    case DoUpdateOrder(_, _, _, _) => OrderStepsKeepInvoices(st, c);
    case DoReceive(_, _) => OrderStepsKeepInvoices(st, c);
    case DoSubmitPod(_) => OrderStepsKeepInvoices(st, c);
    case _ => GoodsStepsKeepInvoices(st, c);
  }

  lemma StepAndPaid(st: State, c: Call, i: Id)
    requires AllReviewed(st) && i in st.invoices && st.invoices[i].status.Paid?
    requires c.request.DoDeleteUser? ==> c.request.id != st.invoices[i].customer
    ensures i in After(st, c).invoices
    ensures SameBill(st.invoices[i], After(st, c).invoices[i]) <==> !Reopens(st, c, i)
  {
    if c.request.DoVerify? {
      VerdictAndPaid(st, c, i);
    } else if IsBilling(c.request) {
      IssuingLeavesPaid(st, c, i);
    } else {
      NoDeletionKeepsInvoice(st, c, i);
      OthersKeepInvoices(st, c);
    }
  }

  /** The invoice stays PAID with the same bill after every request of the run. */
  ghost predicate PaidThroughout(st: State, calls: seq<Call>, i: Id)
    decreases |calls|
  {
    && i in st.invoices && st.invoices[i].status.Paid?
    && (calls != [] ==>
          && i in After(st, calls[0]).invoices && SameBill(st.invoices[i], After(st, calls[0]).invoices[i])
          && PaidThroughout(After(st, calls[0]), calls[1..], i))
  }

  ghost predicate NeverReopened(st: State, calls: seq<Call>, i: Id)
    decreases |calls|
  {
    calls == [] || (!Reopens(st, calls[0], i) && NeverReopened(After(st, calls[0]), calls[1..], i))
  }

  /** PAID is final over any run that does not delete the customer, exactly when no Admin rejects
      the invoice after it was paid. */
  lemma {:induction false} PaidIsFinal(st: State, calls: seq<Call>, i: Id)
    requires AllReviewed(st) && i in st.invoices && st.invoices[i].status.Paid?
    requires forall k :: 0 <= k < |calls| && calls[k].request.DoDeleteUser? ==>
      calls[k].request.id != st.invoices[i].customer
    ensures PaidThroughout(st, calls, i) <==> NeverReopened(st, calls, i)
    decreases |calls|
  {
    if calls != [] {
      StepAndPaid(st, calls[0], i);
      StepAndPayments(st, calls[0]);
      if !Reopens(st, calls[0], i) {
        PaidIsFinal(After(st, calls[0]), calls[1..], i);
      }
    }
  }

  lemma {:induction false} NothingToResolve(payments: seq<Payment>, s: PaymentStatus)
    requires Tally(payments, UnderReview) == 0
    ensures Resolved(payments, s) == payments
  {
    if payments != [] { NothingToResolve(payments[1..], s); }
  }

  // ---- the status filter ----

  /** The `where` clause of the invoice list. */
  predicate Selected(inv: Invoice, query: InvoiceStatus, now: int) {
    match query
    case Overdue => inv.status.Overdue? || (inv.status.Unpaid? && inv.due < now)
    case Unpaid => inv.status.Unpaid? && now <= inv.due
    case _ => inv.status == query
  }

  /** A stored OVERDUE is past due; PENDING_VERIFICATION is never stored. */
  predicate Dated(inv: Invoice, now: int) {
    (inv.status.Overdue? ==> inv.due < now) && !inv.status.PendingVerification?
  }

  /** The filter and the computed status agree on every query exactly for such invoices. */
  lemma FilterAgrees(inv: Invoice, now: int)
    ensures (forall query :: Selected(inv, query, now) <==> ChargeAt(inv, now).status == query) <==> Dated(inv, now)
  {
    if !Dated(inv, now) {
      assert Selected(inv, inv.status, now) && ChargeAt(inv, now).status != inv.status;
    }
  }

  /** Calls arrive at times that never go back, from `start` up to `end`. */
  predicate Clocked(calls: seq<Call>, start: int, end: int)
    decreases |calls|
  {
    if calls == [] then start <= end else start <= calls[0].now && Clocked(calls[1..], calls[0].now, end)
  }

  lemma StepKeepsDates(st: State, c: Call, before: int)
    requires before <= c.now && AllDated(st, before)
    ensures AllDated(After(st, c), c.now)
  {
    var r := c.request;
    if r.DoPay? {
      PayingKeepsDates(st, r.id, r.amount, c.actor, c.now);
    } else if r.DoVerify? {
      JudgingKeepsDates(st, r.id, r.verdict, c.actor, c.now);
    } else if r.DoRentSpace? {
      RentingKeepsDates(st, r.id, r.rent, c.actor, r.start, c.now);
    } else {
      OthersKeepInvoices(st, c);
    }
  }

  ghost predicate AllDated(st: State, now: int) {
    forall i :: i in st.invoices ==> Dated(st.invoices[i], now)
  }

  lemma PayingKeepsDates(st: State, id: Id, amount: int, actor: Actor, now: int)
    requires AllDated(st, now)
    ensures var reply := PayInvoice(st, id, amount, actor, now); reply.Accepted? ==> AllDated(reply.value, now)
  {
  }

  lemma RentingKeepsDates(st: State, id: Id, rent: RentDto, actor: Actor, start: int, now: int)
    requires AllDated(st, now)
    ensures var reply := RentSpace(st, id, rent, actor, start); reply.Accepted? ==> AllDated(reply.value, now)
  {
  }

  lemma JudgingKeepsDates(st: State, id: Id, verdict: Verdict, actor: Actor, now: int)
    requires AllDated(st, now)
    ensures var reply := VerifyPayment(st, id, verdict, actor, now); reply.Accepted? ==> AllDated(reply.value, now)
  {
  }

  /** Filtering by status in the database returns exactly the invoices that show that status. */
  lemma {:induction false} FilterAgreesAlongRuns(st: State, calls: seq<Call>, start: int, now: int, i: Id,
    query: InvoiceStatus)
    requires AllDated(st, start)
    requires Clocked(calls, start, now) && i in Run(st, calls).invoices
    ensures Selected(Run(st, calls).invoices[i], query, now)
       <==> ChargeAt(Run(st, calls).invoices[i], now).status == query
    decreases |calls|
  {
    if calls == [] {
      FilterAgrees(st.invoices[i], now);
    } else {
      StepKeepsDates(st, calls[0], start);
      FilterAgreesAlongRuns(After(st, calls[0]), calls[1..], calls[0].now, now, i, query);
    }
  }

  // ---- the penalty of rented space ----

  /** Subtotals issued by renting space are whole IDR. */
  ghost predicate WholeSubtotals(st: State) {
    forall i :: i in st.invoices ==> 0 <= st.invoices[i].subtotal && st.invoices[i].subtotal % 100 == 0
  }

  lemma RentKeepsWholeSubtotals(st: State, id: Id, dto: RentDto, c: Id, start: int)
    requires WholeSubtotals(st)
    ensures WholeSubtotals(st.(invoices := st.invoices[id := NewInvoice(dto, c, start)]))
  {
    GrandTotalIsWhole(dto);
  }

  lemma PaymentsKeepWholeSubtotals(st: State, c: Call)
    requires WholeSubtotals(st) && (c.request.DoPay? || c.request.DoVerify?)
    ensures WholeSubtotals(After(st, c))
  {
  }

  lemma StepKeepsWholeSubtotals(st: State, c: Call)
    requires WholeSubtotals(st)
    ensures WholeSubtotals(After(st, c))
  {
    match c.request
    case DoRentSpace(id, dto, start) => RentKeepsWholeSubtotals(st, id, dto, c.actor.id, start);
    case DoPay(_, _) => PaymentsKeepWholeSubtotals(st, c);
    case DoVerify(_, _) => PaymentsKeepWholeSubtotals(st, c);
    case _ => OthersKeepInvoices(st, c);
  }

  lemma GrandTotalIsWhole(dto: RentDto)
    ensures 100 * Pricing.MINIMUM_FEE <= GrandTotal(dto) && GrandTotal(dto) % 100 == 0
  {
    var fee := Pricing.MonthlyFee(dto.volume, Pricing.RatePerM3(dto.zone));
    assert Pricing.MINIMUM_FEE * 1 <= fee * dto.months;
  }

  /** In every reachable state an unpaid invoice, `into` a week begun after `week` full ones past its
      due date, owes its subtotal and a twentieth of it for each week begun. */
  lemma PenaltyIsAWeeklyStep(st: State, calls: seq<Call>, i: Id, week: nat, into: int)
    requires WholeSubtotals(st) && i in Run(st, calls).invoices
    requires 0 < into <= Pricing.WEEK
    ensures var inv := Run(st, calls).invoices[i];
      !inv.status.Paid? && !inv.status.Cancelled? ==>
        ChargeAt(inv, inv.due + week * Pricing.WEEK + into).totalAmount == inv.subtotal + inv.subtotal / 20 * (week + 1)
  {
    forall s, c | WholeSubtotals(s) && Always(s, c) ensures WholeSubtotals(After(s, c)) {
      StepKeepsWholeSubtotals(s, c);
    }
    Unguarded(st, calls);
    RunKeeps(WholeSubtotals, Always, st, calls);
    var inv := Run(st, calls).invoices[i];
    Pricing.WeeklySteps(inv.subtotal, week, into);
    assert inv.due + week * Pricing.WEEK + into - inv.due == week * Pricing.WEEK + into;
  }

  /** The amount due never falls as time passes. */
  lemma ChargeIsMonotone(inv: Invoice, t1: int, t2: int)
    requires t1 <= t2 && 0 <= inv.subtotal
    ensures ChargeAt(inv, t1).totalAmount <= ChargeAt(inv, t2).totalAmount
  {
    Pricing.OwedMonotone(inv.subtotal, t1 - inv.due, t2 - inv.due);
  }
}
