/** The notification table: at most fifty for each recipient, no repetition within a minute. */
module Notifications {
  import opened Domain

  const LIMIT := 50
  const WINDOW := 60_000

  /** What two notifications must share to be the same one. */
  datatype Subject = Subject(recipient: Id, category: int, title: string, message: string)

  datatype Notice = Notice(subject: Subject, created: int)

  type Store = map<Id, Notice>

  function Mine(store: Store, r: Id): set<Id> {
    set n | n in store && store[n].subject.recipient == r
  }

  /** An identical notification of the last minute. */
  predicate Throttled(store: Store, subject: Subject, now: int) {
    exists n :: n in store && store[n].subject == subject && now - WINDOW <= store[n].created
  }

  /** How many of `count` notifications make room for one more. */
  function Excess(count: nat): nat {
    if count < LIMIT then 0 else count - LIMIT + 1
  }

  /** `gone` are `k` oldest of a recipient's rows; equal dates in any order. */
  predicate Oldest(store: Store, r: Id, gone: set<Id>, k: nat) {
    && gone <= Mine(store, r) && |gone| == k
    && forall a, b :: a in gone && b in Mine(store, r) - gone ==> store[a].created <= store[b].created
  }

  function Added(store: Store, gone: set<Id>, id: Id, subject: Subject, stamp: int): Store {
    (store - gone)[id := Notice(subject, stamp)]
  }

  /** `createNotification` reading the clock at `now` and stamping its row at `stamp`. */
  ghost predicate Creates(store: Store, after: Store, id: Id, subject: Subject, now: int, stamp: int) {
    if Throttled(store, subject, now) then after == store
    else exists gone :: Oldest(store, subject.recipient, gone, Excess(|Mine(store, subject.recipient)|))
                        && after == Added(store, gone, id, subject, stamp)
  }

  predicate DropsOldest(store: Store, after: Store, id: Id, r: Id) {
    forall dropped, kept :: dropped in Mine(store, r) - Mine(after, r) && kept in Mine(after, r) && kept != id ==>
      kept in store && store[dropped].created <= after[kept].created
  }

  predicate OthersStay(store: Store, after: Store, id: Id, r: Id) {
    && (forall n :: n != id && n in after ==> n in store && after[n] == store[n])
    && (forall n :: n in store && store[n].subject.recipient != r ==> n in after)
  }

  /** From any count n an unthrottled notification leaves min(n + 1, 50); what it drops is the
      recipient's and no newer than anything it keeps; every other row stays as it was. */
  lemma RetentionIsBounded(store: Store, after: Store, id: Id, subject: Subject, now: int, stamp: int)
    requires Creates(store, after, id, subject, now, stamp) && !Throttled(store, subject, now) && id !in store
    ensures var r := subject.recipient;
      && |Mine(after, r)| == (if |Mine(store, r)| < LIMIT then |Mine(store, r)| + 1 else LIMIT)
      && id in after && after[id] == Notice(subject, stamp)
      && DropsOldest(store, after, id, r) && OthersStay(store, after, id, r)
  {
    var r := subject.recipient;
    var gone :| Oldest(store, r, gone, Excess(|Mine(store, r)|)) && after == Added(store, gone, id, subject, stamp);
    AddingIsBounded(store, gone, id, subject, stamp);
  }

  lemma AddingIsBounded(store: Store, gone: set<Id>, id: Id, subject: Subject, stamp: int)
    requires Oldest(store, subject.recipient, gone, Excess(|Mine(store, subject.recipient)|)) && id !in store
    ensures var after, r := Added(store, gone, id, subject, stamp), subject.recipient;
      && |Mine(after, r)| == (if |Mine(store, r)| < LIMIT then |Mine(store, r)| + 1 else LIMIT)
      && DropsOldest(store, after, id, r) && OthersStay(store, after, id, r)
  {
    AddedRows(store, gone, id, subject, stamp);
    OldestAreDropped(store, gone, id, subject, stamp);
    AddedLeavesOthers(store, gone, id, subject, stamp);
  }

  lemma AddedLeavesOthers(store: Store, gone: set<Id>, id: Id, subject: Subject, stamp: int)
    requires gone <= Mine(store, subject.recipient) && id !in store
    ensures OthersStay(store, Added(store, gone, id, subject, stamp), id, subject.recipient)
  {
  }

  lemma OldestAreDropped(store: Store, gone: set<Id>, id: Id, subject: Subject, stamp: int)
    requires Oldest(store, subject.recipient, gone, |gone|) && id !in store
    ensures DropsOldest(store, Added(store, gone, id, subject, stamp), id, subject.recipient)
  {
    var after, r := Added(store, gone, id, subject, stamp), subject.recipient;
    AddedRows(store, gone, id, subject, stamp);
    forall dropped, kept | dropped in Mine(store, r) - Mine(after, r) && kept in Mine(after, r) && kept != id
      ensures kept in store && store[dropped].created <= after[kept].created
    {
      assert dropped in gone && kept in Mine(store, r) - gone;
    }
  }

  lemma AddedRows(store: Store, gone: set<Id>, id: Id, subject: Subject, stamp: int)
    requires gone <= Mine(store, subject.recipient) && id !in store
    ensures var after, r := Added(store, gone, id, subject, stamp), subject.recipient;
      Mine(after, r) == Mine(store, r) - gone + {id} && |Mine(after, r)| == |Mine(store, r)| - |gone| + 1
  {
    var after, r := Added(store, gone, id, subject, stamp), subject.recipient;
    assert Mine(after, r) == Mine(store, r) - gone + {id};
    assert |Mine(store, r) - gone| == |Mine(store, r)| - |gone|;
  }

  /** No two notifications of one subject within a minute of each other. */
  predicate Spaced(store: Store) {
    forall m, n :: m in store && n in store && m != n && store[m].subject == store[n].subject ==>
      store[m].created + WINDOW < store[n].created || store[n].created + WINDOW < store[m].created
  }

  predicate Bounded(store: Store, r: Id) {
    |Mine(store, r)| <= LIMIT
  }

  datatype Event = Create(id: Id, subject: Subject, now: int, stamp: int) | Delete(r: Id)

  /** One event: a notification with a clock that never runs back, or an account's rows deleted. */
  ghost predicate Happens(store: Store, after: Store, e: Event) {
    match e
    case Create(id, subject, now, stamp) =>
      id !in store && now <= stamp && Creates(store, after, id, subject, now, stamp)
    case Delete(r) => after == store - Mine(store, r)
  }

  ghost predicate History(stores: seq<Store>, events: seq<Event>) {
    && |stores| == |events| + 1
    && forall i :: 0 <= i < |events| ==> Happens(stores[i], stores[i + 1], events[i])
  }

  lemma EventKeepsStore(store: Store, after: Store, e: Event)
    requires Happens(store, after, e) && Spaced(store)
    ensures Spaced(after)
    ensures forall r :: Bounded(store, r) ==> Bounded(after, r)
  {
    match e
    case Create(id, subject, now, stamp) =>
      if !Throttled(store, subject, now) {
        RetentionIsBounded(store, after, id, subject, now, stamp);
        CreatedStaysSpaced(store, after, id, subject, now, stamp);
        CreatedStaysBounded(store, after, id, subject.recipient);
      }
    case Delete(c) =>
      forall r | Bounded(store, r) ensures Bounded(after, r) {
        assert Mine(after, r) == if r == c then {} else Mine(store, r);
      }
  }

  lemma CreatedStaysSpaced(store: Store, after: Store, id: Id, subject: Subject, now: int, stamp: int)
    requires Spaced(store) && !Throttled(store, subject, now) && now <= stamp
    requires OthersStay(store, after, id, subject.recipient) && id in after && after[id] == Notice(subject, stamp)
    ensures Spaced(after)
  {
  }

  lemma CreatedStaysBounded(store: Store, after: Store, id: Id, recipient: Id)
    requires OthersStay(store, after, id, recipient) && id in after && id !in store
    requires after[id].subject.recipient == recipient && Bounded(after, recipient)
    ensures forall r :: Bounded(store, r) ==> Bounded(after, r)
  {
    forall r | Bounded(store, r) ensures Bounded(after, r) {
      if r != recipient { assert Mine(after, r) == Mine(store, r); }
    }
  }

  /** Over any history from an empty table, no recipient ever holds more than fifty notifications,
      and no two identical ones are within a minute of each other. */
  lemma {:induction false} StoreStaysTidy(stores: seq<Store>, events: seq<Event>)
    requires History(stores, events) && stores[0] == map[]
    ensures Spaced(stores[|events|]) && forall r :: Bounded(stores[|events|], r)
    decreases |events|
  {
    if events == [] {
      forall r ensures Bounded(stores[0], r) { assert Mine(stores[0], r) == {}; }
    } else {
      var k := |events| - 1;
      StoreStaysTidy(stores[..|stores| - 1], events[..k]);
      assert Happens(stores[k], stores[k + 1], events[k]);
      EventKeepsStore(stores[k], stores[k + 1], events[k]);
    }
  }

  // ---- nothing is lost ----

  /** A stored notification says the same to the same recipient, and is of the minute up to `now` or later. */
  predicate Repeats(notice: Notice, subject: Subject, now: int) {
    && notice.subject.recipient == subject.recipient && notice.subject.category == subject.category
    && notice.subject.title == subject.title && notice.subject.message == subject.message
    && now - 60_000 <= notice.created
  }

  /** A notification is added exactly unless it repeats one of the last minute; then nothing changes. */
  lemma AddedUnlessRepeated(store: Store, after: Store, id: Id, subject: Subject, now: int, stamp: int)
    requires Creates(store, after, id, subject, now, stamp) && id !in store
    ensures id in after <==> forall n :: n in store ==> !Repeats(store[n], subject, now)
    ensures id in after ==> after[id] == Notice(subject, stamp)
    ensures id !in after ==> after == store
  {
    if n :| n in store && Repeats(store[n], subject, now) {
      assert store[n].subject == subject;
      assert Throttled(store, subject, now);
    }
  }

  /** The row goes with its account, or makes room as one of its recipient's oldest. */
  ghost predicate Makes(store: Store, after: Store, e: Event, id: Id)
    requires id in store
  {
    match e
    case Delete(r) => store[id].subject.recipient == r
    case Create(added, subject, _, _) =>
      && store[id].subject.recipient == subject.recipient
      && |Mine(store, subject.recipient)| >= 50
      && forall kept :: kept in Mine(after, subject.recipient) && kept != added ==>
           kept in store && store[id].created <= store[kept].created
  }

  lemma GoneMadeRoom(store: Store, after: Store, e: Event, id: Id)
    requires Happens(store, after, e) && id in store && id !in after
    ensures Makes(store, after, e, id)
  {
    match e
    case Delete(_) =>
    case Create(added, subject, now, stamp) =>
      var r := subject.recipient;
      assert !Throttled(store, subject, now);
      var gone :| Oldest(store, r, gone, Excess(|Mine(store, r)|))
        && after == Added(store, gone, added, subject, stamp);
      assert id in gone;
      assert |gone| != 0;
      forall kept | kept in Mine(after, r) && kept != added
        ensures kept in store && store[id].created <= store[kept].created {
        assert kept in Mine(store, r) - gone;
      }
  }

  /** Over any history a notification that was asked for is missing later only if one it repeats stood
      there then, or it was dropped since, with its account or as one of the oldest of fifty or more. */
  lemma {:induction false} NothingIsLost(stores: seq<Store>, events: seq<Event>, i: nat, k: nat)
    requires History(stores, events) && i < k <= |events| && events[i].Create? && events[i].id !in stores[k]
    ensures (exists n :: n in stores[i] && Repeats(stores[i][n], events[i].subject, events[i].now))
         || (exists j :: i < j < k && events[i].id in stores[j]
              && Makes(stores[j], stores[j + 1], events[j], events[i].id))
    decreases k
  {
    var e := events[i];
    assert Happens(stores[i], stores[i + 1], e);
    AddedUnlessRepeated(stores[i], stores[i + 1], e.id, e.subject, e.now, e.stamp);
    if e.id in stores[i + 1] {
      var j := k - 1;
      assert Happens(stores[j], stores[j + 1], events[j]);
      if e.id in stores[j] {
        GoneMadeRoom(stores[j], stores[j + 1], events[j], e.id);
      } else {
        NothingIsLost(stores, events, i, j);
      }
    }
  }

  // ---- choosing the oldest rows, one at a time ----

  /** The oldest of some rows added to the oldest so far are again the oldest. */
  lemma OneMoreOldest(store: Store, r: Id, gone: set<Id>, k: nat, n: Id)
    requires Oldest(store, r, gone, k) && n in Mine(store, r) - gone
    requires forall m :: m in Mine(store, r) - gone ==> store[n].created <= store[m].created
    ensures Oldest(store, r, gone + {n}, k + 1)
  {
    forall a, b | a in gone + {n} && b in Mine(store, r) - (gone + {n}) ensures store[a].created <= store[b].created {
      assert b in Mine(store, r) - gone;
    }
  }
}
