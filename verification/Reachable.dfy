/** From the opening of the business on: what holds in every reachable state. */
module Reachable {
  import opened Domain
  import opened Capacity
  import opened System
  import opened RackTheorems
  import opened ReservationTheorems
  import opened FleetTheorems
  import opened InboundTheorems
  import opened BillingTheorems

  /** Racks, warehouses, vehicles and accounts are there; no goods, orders or invoices yet. */
  ghost predicate Opening(st: State) {
    && st.goods == map[] && st.orders == map[] && st.invoices == map[]
    && (forall s :: s in st.slots ==>
          st.slots[s].used == 0 &&
            (st.slots[s].status == SlotStatus.Available || st.slots[s].status == SlotStatus.Maintenance))
    && (forall w :: w in st.houses ==> st.houses[w].used == 0)
  }

  /** What every run keeps, whatever is requested. */
  ghost predicate Lasting(st: State) {
    Racked(st) && Accounted(st) && Fitted(st) && AllReviewed(st)
  }

  /** What needs a guard besides. */
  ghost predicate Orderly(st: State) {
    Lasting(st) && UpToDate(st) && Exclusive(st.orders) && Settled(st) && AllCleared(st)
  }

  ghost predicate AllGuards(st: State, c: Call) {
    CacheGuard(st, c) && FleetGuard(st, c) && InboundGuard(st, c) && VerdictGuard(st, c)
  }

  lemma NothingIsMeasured(where: Goods -> bool, measure: Goods -> int)
    ensures Measure(map[], where, measure) == 0
  {
    assert Rows(map[], where, measure) == map[];
  }

  lemma OpeningIsOrderly(st: State)
    requires Opening(st)
    ensures Orderly(st)
  {
    forall where, measure ensures Measure(st.goods, where, measure) == 0 { NothingIsMeasured(where, measure); }
    forall s | s in st.slots ensures SlotUpToDate(st, s) && WithinRack(st.goods, st.slots[s].capacity, s) {
      assert SlotVolume(st.goods, s) == 0 && SlotWeight(st.goods, s) == 0;
    }
    forall w | w in st.houses ensures HouseUpToDate(st, w) {
      assert HouseVolume(st.goods, w) == 0;
    }
  }

  lemma StepKeepsLasting(st: State, c: Call)
    requires Lasting(st)
    ensures Lasting(After(st, c))
  {
    StepKeepsRacks(st, c);
    StepKeepsAccounted(st, c);
    StepKeepsFitted(st, c);
    StepAndPayments(st, c);
  }

  /** In every reachable state racks are within their limits, no package is promised twice, orders
      fit their vehicles, and PENDING_PAYMENT means one payment under review of the stored total. */
  lemma EveryReachableState(st: State, calls: seq<Call>)
    requires Opening(st)
    ensures Lasting(Run(st, calls))
  {
    OpeningIsOrderly(st);
    forall s, c | Lasting(s) && Always(s, c) ensures Lasting(After(s, c)) { StepKeepsLasting(s, c); }
    Unguarded(st, calls);
    RunKeeps(Lasting, Always, st, calls);
  }

  /** Every request keeps all of it exactly under all four guards. */
  lemma StepAndOrderly(st: State, c: Call)
    requires Orderly(st)
    ensures Orderly(After(st, c)) <==> AllGuards(st, c)
  {
    StepKeepsLasting(st, c);
    StepAndCaches(st, c);
    StepAndExclusive(st, c);
    StepAndSettled(st, c);
    StepAndPayments(st, c);
  }

  /** In every state reachable under the guards all of it holds at once: caches are what a full
      recomputation writes, assignments are exclusive, no inbound order is left waiting, and PAID
      means one verified payment. */
  lemma EveryGuardedState(st: State, calls: seq<Call>)
    requires Opening(st) && Guarded(st, calls, AllGuards)
    ensures Orderly(Run(st, calls)) && Reconciled(Run(st, calls)) == Run(st, calls)
  {
    OpeningIsOrderly(st);
    forall s, c | Orderly(s) && AllGuards(s, c) ensures Orderly(After(s, c)) { StepAndOrderly(s, c); }
    RunKeeps(Orderly, AllGuards, st, calls);
    ReconcileIsTheFixpoint(Run(st, calls));
  }

  ghost predicate OrderlyThroughout(st: State, calls: seq<Call>)
    decreases |calls|
  {
    Orderly(st) && (calls == [] || OrderlyThroughout(After(st, calls[0]), calls[1..]))
  }

  /** The guards are the weakest ones: a run stays orderly throughout exactly under them. */
  lemma {:induction false} GuardsAreExact(st: State, calls: seq<Call>)
    requires Orderly(st)
    ensures OrderlyThroughout(st, calls) <==> Guarded(st, calls, AllGuards)
    decreases |calls|
  {
    if calls != [] {
      StepAndOrderly(st, calls[0]);
      if AllGuards(st, calls[0]) {
        GuardsAreExact(After(st, calls[0]), calls[1..]);
      }
    }
  }
}
