/** Registrations of one customer interleaved with everything else: each is a transaction that
    locks the customer's row, checks the rented space and inserts, while other requests commit
    in between. */
module Registrations {
  import opened Domain
  import opened Capacity
  import opened Inventory
  import opened System
  import opened RentalTheorems
  import Reachable

  datatype Phase = Waiting | Locked | Checked

  /** One registration under way: the row it will insert, and how far it is. */
  datatype Registration = Registration(row: Goods, phase: Phase)

  /** Committed tables, the holder of each user row's lock, and the transactions under way. */
  datatype Sessions = Sessions(db: State, holder: map<Id, Id>, open: map<Id, Registration>)

  datatype Step =
    | Begin(t: Id, row: Goods)
    | Lock(t: Id)
    | Check(t: Id)
    | Insert(t: Id, id: Id)
    | Abort(t: Id)
    | Other(call: Call)

  ghost predicate Passes(db: State, row: Goods) {
    WithinRental(db.goods, db.invoices, row.owner, row.warehouse, row.volume, row.weight)
  }

  function Ended(ss: Sessions, t: Id): Sessions
    requires t in ss.open
  {
    var user := ss.open[t].row.owner;
    var holder := if user in ss.holder && ss.holder[user] == t then ss.holder - {user} else ss.holder;
    ss.(open := ss.open - {t}, holder := holder)
  }

  /** What a step does; a step that cannot be taken now does nothing. */
  ghost function Next(ss: Sessions, step: Step): Sessions {
    match step
    case Begin(t, row) =>
      if t in ss.open || !Occupying(row.status) || row.status.Stored? then ss
      else ss.(open := ss.open[t := Registration(row, Waiting)])
    case Lock(t) =>
      if t !in ss.open || !ss.open[t].phase.Waiting? || ss.open[t].row.owner in ss.holder then ss
      else ss.(open := ss.open[t := ss.open[t].(phase := Locked)], holder := ss.holder[ss.open[t].row.owner := t])
    case Check(t) =>
      if t !in ss.open || !ss.open[t].phase.Locked? then ss
      else if Passes(ss.db, ss.open[t].row) then ss.(open := ss.open[t := ss.open[t].(phase := Checked)])
      else Ended(ss, t)
    case Insert(t, id) =>
      if t !in ss.open || !ss.open[t].phase.Checked? || id in ss.db.goods then ss
      else Ended(ss, t).(db := ss.db.(goods := ss.db.goods[id := ss.open[t].row]))
    case Abort(t) => if t in ss.open then Ended(ss, t) else ss
    case Other(call) => ss.(db := After(ss.db, call))
  }

  /** Whoever is past waiting holds the lock; whoever has passed the check would pass it now. */
  ghost predicate Serialised(ss: Sessions, c: Id, w: Id) {
    && Bounded(ss.db, c, w) && 0 < Rented(ss.db.invoices, c, w) && NoneCancelled(ss.db.invoices)
    && (forall t :: t in ss.open && !ss.open[t].phase.Waiting? ==>
          ss.open[t].row.owner in ss.holder && ss.holder[ss.open[t].row.owner] == t)
    && (forall t ::
          t in ss.open && ss.open[t].phase.Checked? && ss.open[t].row.owner == c && ss.open[t].row.warehouse == w ==>
          Passes(ss.db, ss.open[t].row))
  }

  /** Other requests register nothing for `c`, remove no rental of theirs, and bring nothing back. */
  ghost predicate Harmless(ss: Sessions, step: Step, c: Id, w: Id) {
    step.Other? ==> Elsewhere(step.call, c) && NothingReturns(ss.db, step.call, c, w)
  }

  lemma OtherKeepsSerialised(ss: Sessions, call: Call, c: Id, w: Id)
    requires Serialised(ss, c, w) && Elsewhere(call, c) && NothingReturns(ss.db, call, c, w)
    ensures Serialised(Next(ss, Other(call)), c, w)
  {
    ElsewhereOnlyRentsMore(ss.db, call, c, w);
    ElsewhereOccupiesNothing(ss.db, call, c, w);
    StepKeepsNoneCancelled(ss.db, call);
  }

  lemma InsertKeepsSerialised(ss: Sessions, t: Id, id: Id, c: Id, w: Id)
    requires Serialised(ss, c, w)
    ensures Serialised(Next(ss, Insert(t, id)), c, w)
  {
    if t in ss.open && ss.open[t].phase.Checked? && id !in ss.db.goods {
      InsertedOccupies(ss.db.goods, id, ss.open[t].row, c, w, VolumeOf);
      InsertedOccupies(ss.db.goods, id, ss.open[t].row, c, w, WeightOf);
    }
  }

  lemma InsertedOccupies(goods: map<Id, Goods>, id: Id, row: Goods, c: Id, w: Id, measure: Goods -> int)
    requires id !in goods
    ensures Measure(goods[id := row], OccupiedBy(c, w), measure)
         == Measure(goods, OccupiedBy(c, w), measure) + if OccupiedBy(c, w)(row) then measure(row) else 0
  {
    ReplaceRow(goods, id, row, OccupiedBy(c, w), measure);
    assert goods - {id} == goods;
  }

  lemma BeginKeepsSerialised(ss: Sessions, t: Id, row: Goods, c: Id, w: Id)
    requires Serialised(ss, c, w)
    ensures Serialised(Next(ss, Begin(t, row)), c, w)
  {
  }

  lemma LockKeepsSerialised(ss: Sessions, t: Id, c: Id, w: Id)
    requires Serialised(ss, c, w)
    ensures Serialised(Next(ss, Lock(t)), c, w)
  {
  }

  lemma EndedKeepsSerialised(ss: Sessions, t: Id, c: Id, w: Id)
    requires Serialised(ss, c, w) && t in ss.open
    ensures Serialised(Ended(ss, t), c, w)
  {
  }

  lemma CheckKeepsSerialised(ss: Sessions, t: Id, c: Id, w: Id)
    requires Serialised(ss, c, w)
    ensures Serialised(Next(ss, Check(t)), c, w)
  {
    if t in ss.open && ss.open[t].phase.Locked? && !Passes(ss.db, ss.open[t].row) {
      EndedKeepsSerialised(ss, t, c, w);
    }
  }

  lemma AbortKeepsSerialised(ss: Sessions, t: Id, c: Id, w: Id)
    requires Serialised(ss, c, w)
    ensures Serialised(Next(ss, Abort(t)), c, w)
  {
    if t in ss.open {
      EndedKeepsSerialised(ss, t, c, w);
    }
  }

  lemma StepKeepsSerialised(ss: Sessions, step: Step, c: Id, w: Id)
    requires Serialised(ss, c, w) && Harmless(ss, step, c, w)
    ensures Serialised(Next(ss, step), c, w)
  {
    match step
    case Begin(t, row) => BeginKeepsSerialised(ss, t, row, c, w);
    case Lock(t) => LockKeepsSerialised(ss, t, c, w);
    case Check(t) => CheckKeepsSerialised(ss, t, c, w);
    case Insert(t, id) => InsertKeepsSerialised(ss, t, id, c, w);
    case Abort(t) => AbortKeepsSerialised(ss, t, c, w);
    case Other(call) => OtherKeepsSerialised(ss, call, c, w);
  }

  ghost function Interleave(ss: Sessions, steps: seq<Step>): Sessions
    decreases |steps|
  {
    if steps == [] then ss else Interleave(Next(ss, steps[0]), steps[1..])
  }

  ghost predicate AllHarmless(ss: Sessions, steps: seq<Step>, c: Id, w: Id)
    decreases |steps|
  {
    steps == [] || (Harmless(ss, steps[0], c, w) && AllHarmless(Next(ss, steps[0]), steps[1..], c, w))
  }

  /** In every interleaving, what a customer keeps in a rented warehouse exceeds the rented volume
      and weight by at most the tolerance of one check. */
  lemma {:induction false} NoInterleavingOverfills(ss: Sessions, steps: seq<Step>, c: Id, w: Id)
    requires Serialised(ss, c, w) && AllHarmless(ss, steps, c, w)
    ensures var end := Interleave(ss, steps).db; var rented := Rented(end.invoices, c, w);
      OccupiedSpace(end, c, w, VolumeOf) <= rented + 1 && OccupiedSpace(end, c, w, WeightOf) <= rented + 1
    decreases |steps|
  {
    if steps != [] {
      StepKeepsSerialised(ss, steps[0], c, w);
      NoInterleavingOverfills(Next(ss, steps[0]), steps[1..], c, w);
    }
  }

  // ---- with any other request, exactly ----

  /** The row is still within the rented space when it is inserted; any other request meets its guard. */
  ghost predicate StillPasses(ss: Sessions, step: Step, c: Id, w: Id) {
    match step
    case Insert(t, id) =>
      t in ss.open && ss.open[t].phase.Checked? && id !in ss.db.goods ==>
        ss.open[t].row.owner != c || ss.open[t].row.warehouse != w || Passes(ss.db, ss.open[t].row)
    case Other(call) => RentalGuard(ss.db, call, c, w)
    case _ => true
  }

  /** Only goods that are not stored are registered. */
  predicate Registering(ss: Sessions) {
    forall t :: t in ss.open ==> Occupying(ss.open[t].row.status)
  }

  lemma InsertAndBound(ss: Sessions, t: Id, id: Id, c: Id, w: Id)
    requires Bounded(ss.db, c, w) && Registering(ss)
    requires t in ss.open && ss.open[t].phase.Checked? && id !in ss.db.goods
    ensures Bounded(Next(ss, Insert(t, id)).db, c, w) <==> StillPasses(ss, Insert(t, id), c, w)
  {
    InsertedAndBound(ss.db, id, ss.open[t].row, c, w);
  }

  lemma InsertedAndBound(db: State, id: Id, row: Goods, c: Id, w: Id)
    requires Bounded(db, c, w) && id !in db.goods && Occupying(row.status)
    ensures Bounded(db.(goods := db.goods[id := row]), c, w)
       <==> row.owner != c || row.warehouse != w || Passes(db, row)
  {
    InsertedOccupies(db.goods, id, row, c, w, VolumeOf);
    InsertedOccupies(db.goods, id, row, c, w, WeightOf);
  }

  lemma StepKeepsRegistering(ss: Sessions, step: Step)
    requires NoneCancelled(ss.db.invoices) && Registering(ss)
    ensures NoneCancelled(Next(ss, step).db.invoices) && Registering(Next(ss, step))
  {
    if step.Other? { StepKeepsNoneCancelled(ss.db, step.call); }
  }

  lemma StepAndBounded(ss: Sessions, step: Step, c: Id, w: Id)
    requires Bounded(ss.db, c, w) && NoneCancelled(ss.db.invoices) && Registering(ss)
    ensures Bounded(Next(ss, step).db, c, w) <==> StillPasses(ss, step, c, w)
    ensures NoneCancelled(Next(ss, step).db.invoices) && Registering(Next(ss, step))
  {
    StepKeepsRegistering(ss, step);
    match step
    case Insert(t, id) =>
      if t in ss.open && ss.open[t].phase.Checked? && id !in ss.db.goods { InsertAndBound(ss, t, id, c, w); }
    case Other(call) => StepAndBound(ss.db, call, c, w);
    case _ =>
  }

  ghost predicate BoundedAllAlong(ss: Sessions, steps: seq<Step>, c: Id, w: Id)
    decreases |steps|
  {
    Bounded(ss.db, c, w) && (steps == [] || BoundedAllAlong(Next(ss, steps[0]), steps[1..], c, w))
  }

  ghost predicate AllStillPass(ss: Sessions, steps: seq<Step>, c: Id, w: Id)
    decreases |steps|
  {
    steps == [] || (StillPasses(ss, steps[0], c, w) && AllStillPass(Next(ss, steps[0]), steps[1..], c, w))
  }

  /** In every interleaving with any requests at all, changes of the customer's own warehouse included,
      the rented space is not overfilled throughout exactly when every insert still passes its check
      and every other request meets its guard. */
  lemma {:induction false} InsertsDecide(ss: Sessions, steps: seq<Step>, c: Id, w: Id)
    requires Bounded(ss.db, c, w) && NoneCancelled(ss.db.invoices) && Registering(ss)
    ensures BoundedAllAlong(ss, steps, c, w) <==> AllStillPass(ss, steps, c, w)
    decreases |steps|
  {
    if steps != [] {
      StepAndBounded(ss, steps[0], c, w);
      if StillPasses(ss, steps[0], c, w) {
        InsertsDecide(Next(ss, steps[0]), steps[1..], c, w);
      }
    }
  }

  lemma RentalsAlongRuns(st: State, calls: seq<Call>)
    requires NoneCancelled(st.invoices)
    ensures NoneCancelled(Run(st, calls).invoices)
  {
    var inv := (s: State) => NoneCancelled(s.invoices);
    forall s, c | inv(s) && Always(s, c) ensures inv(After(s, c)) { StepKeepsNoneCancelled(s, c); }
    Unguarded(st, calls);
    RunKeeps(inv, Always, st, calls);
  }

  lemma OpeningIsBounded(st: State, c: Id, w: Id)
    requires Reachable.Opening(st)
    ensures Bounded(st, c, w)
  {
    Reachable.NothingIsMeasured(OccupiedBy(c, w), VolumeOf);
    Reachable.NothingIsMeasured(OccupiedBy(c, w), WeightOf);
    assert Volumes(Rentals(st.invoices, c, w)) == map[];
  }

  /** From any state reached under the rental guard in which the customer rents here, once
      transactions are let in: no interleaving overfills. */
  lemma NoReachableStateOverfills(st: State, calls: seq<Call>, steps: seq<Step>, c: Id, w: Id)
    requires Reachable.Opening(st) && 0 < Rented(Run(st, calls).invoices, c, w)
    requires RentalsGuarded(st, calls, c, w)
    requires AllHarmless(Sessions(Run(st, calls), map[], map[]), steps, c, w)
    ensures var end := Interleave(Sessions(Run(st, calls), map[], map[]), steps).db;
      var rented := Rented(end.invoices, c, w);
      OccupiedSpace(end, c, w, VolumeOf) <= rented + 1 && OccupiedSpace(end, c, w, WeightOf) <= rented + 1
  {
    OpeningIsBounded(st, c, w);
    RentedSpaceIsNotOverfilled(st, calls, c, w);
    RentalsAlongRuns(st, calls);
    NoInterleavingOverfills(Sessions(Run(st, calls), map[], map[]), steps, c, w);
  }
}
