/** Notifications from several requests at once: many tasks may write to one recipient, and each is cut
    at its database calls. */
module Deliveries {
  import opened Domain
  import opened Notifications
  import opened Broadcasts

  /** A call of a task under way, a new task, or an account's rows deleted. */
  datatype Event = Call(step: Step) | Launch(k: Id, subject: Subject, id: Id) | Forget(r: Id)

  /** Generated ids are new: no task has the id of another, and none that still inserts has one in use. */
  predicate FreshIds(w: World) {
    && (forall k, l :: k in w.tasks && l in w.tasks && w.tasks[k].id == w.tasks[l].id ==> k == l)
    && (forall k :: k in w.tasks && !w.tasks[k].phase.Done? ==> w.tasks[k].id !in w.store)
  }

  predicate Can(w: World, e: Event) {
    match e
    case Call(step) => Enabled(w, step)
    case Launch(k, _, id) => k !in w.tasks && id !in w.store && forall l :: l in w.tasks ==> w.tasks[l].id != id
    case Forget(_) => true
  }

  function After(w: World, e: Event): World {
    if !Can(w, e) then w else
      match e
      case Call(step) => Next(w, step)
      case Launch(k, subject, id) => w.(tasks := w.tasks[k := Task(subject, id, Searching)])
      case Forget(r) => w.(store := w.store - Mine(w.store, r))
  }

  ghost predicate AllBounded(store: Store) {
    forall r :: Bounded(store, r)
  }

  ghost predicate Tidy(store: Store) {
    AllBounded(store) && Spaced(store)
  }

  /** No identical notification within a minute of `stamp`, before or after. */
  predicate Alone(store: Store, subject: Subject, stamp: int) {
    forall n :: n in store && store[n].subject == subject ==>
      store[n].created + WINDOW < stamp || stamp + WINDOW < store[n].created
  }

  /** At the insertion there is room, and no identical notification is near. */
  predicate StillFits(w: World, e: Event) {
    e.Call? && e.step.Insert? && Can(w, e) ==>
      var subject := w.tasks[e.step.r].subject;
      |Mine(w.store, subject.recipient)| < LIMIT && Alone(w.store, subject, e.step.stamp)
  }

  lemma EventKeepsFresh(w: World, e: Event)
    requires FreshIds(w)
    ensures FreshIds(After(w, e))
  {
  }

  lemma InsertedRows(store: Store, id: Id, notice: Notice, r: Id)
    requires id !in store
    ensures Mine(store[id := notice], r) == Mine(store, r) + (if notice.subject.recipient == r then {id} else {})
  {
  }

  lemma InsertAndBounds(store: Store, id: Id, notice: Notice)
    requires id !in store && AllBounded(store)
    ensures AllBounded(store[id := notice]) <==> |Mine(store, notice.subject.recipient)| < LIMIT
  {
    var after, recipient := store[id := notice], notice.subject.recipient;
    InsertedRows(store, id, notice, recipient);
    if |Mine(store, recipient)| < LIMIT {
      forall r ensures Bounded(after, r) {
        InsertedRows(store, id, notice, r);
        assert Bounded(store, r);
      }
    } else {
      assert !Bounded(after, recipient);
    }
  }

  lemma InsertAndSpacing(store: Store, id: Id, notice: Notice)
    requires id !in store && Spaced(store)
    ensures Spaced(store[id := notice]) <==> Alone(store, notice.subject, notice.created)
  {
    var after := store[id := notice];
    if Spaced(after) {
      forall n | n in store && store[n].subject == notice.subject
        ensures store[n].created + WINDOW < notice.created || notice.created + WINDOW < store[n].created
      {
        assert after[n] == store[n] && after[id] == notice && n != id;
      }
    }
  }

  lemma InsertAndTidiness(w: World, e: Event)
    requires Tidy(w.store) && FreshIds(w) && e.Call? && e.step.Insert? && Can(w, e)
    ensures Tidy(After(w, e).store) <==> StillFits(w, e)
  {
    var task := w.tasks[e.step.r];
    var notice := Notice(task.subject, e.step.stamp);
    assert After(w, e).store == w.store[task.id := notice];
    InsertAndBounds(w.store, task.id, notice);
    InsertAndSpacing(w.store, task.id, notice);
  }

  lemma FewerRowsAreTidy(store: Store, gone: set<Id>)
    requires Tidy(store)
    ensures Tidy(store - gone)
  {
    forall r ensures Bounded(store - gone, r) {
      assert Mine(store - gone, r) == Mine(store, r) - gone;
      assert Bounded(store, r);
      Fewer(Mine(store, r), gone);
    }
  }

  lemma Fewer(s: set<Id>, gone: set<Id>)
    ensures |s - gone| <= |s|
  {
    assert |s - gone| + |s * gone| == |s| by { assert s - gone + s * gone == s; }
  }

  /** Every event keeps at most fifty for each recipient and identical ones a minute apart, an
      insertion exactly when it still fits. */
  lemma EventAndTidiness(w: World, e: Event)
    requires Tidy(w.store) && FreshIds(w)
    ensures Tidy(After(w, e).store) <==> StillFits(w, e)
  {
    if Can(w, e) {
      match e
      case Call(step) =>
        if step.Insert? {
          InsertAndTidiness(w, e);
        } else {
          CallIsTidy(w, step);
        }
      case Launch(_, _, _) => assert After(w, e).store == w.store;
      case Forget(r) => FewerRowsAreTidy(w.store, Mine(w.store, r));
    }
  }

  lemma CallIsTidy(w: World, step: Step)
    requires Tidy(w.store) && Enabled(w, step) && !step.Insert?
    ensures Tidy(Next(w, step).store)
  {
    var e := EffectOf(w, step);
    assert Next(w, step).store == w.store - e.dropped;
    FewerRowsAreTidy(w.store, e.dropped);
  }

  ghost predicate TidyThroughout(w: World, events: seq<Event>)
    decreases |events|
  {
    Tidy(w.store) && (events == [] || TidyThroughout(After(w, events[0]), events[1..]))
  }

  predicate AllStillFit(w: World, events: seq<Event>)
    decreases |events|
  {
    events == [] || (StillFits(w, events[0]) && AllStillFit(After(w, events[0]), events[1..]))
  }

  /** In every interleaving of any number of tasks, to whichever recipients, every recipient has at most
      fifty notifications and no two identical ones within a minute, throughout, exactly when every
      insertion still fits. */
  lemma {:induction false} InsertionsDecide(w: World, events: seq<Event>)
    requires Tidy(w.store) && FreshIds(w)
    ensures TidyThroughout(w, events) <==> AllStillFit(w, events)
    decreases |events|
  {
    if events != [] {
      EventAndTidiness(w, events[0]);
      EventKeepsFresh(w, events[0]);
      if StillFits(w, events[0]) {
        InsertionsDecide(After(w, events[0]), events[1..]);
      }
    }
  }

  // ---- two tasks at once ----

  /** A task that has found no identical notification, and room. */
  function Ready(w: World, k: Id, now: int): World {
    Next(Next(w, Search(k, now)), Count(k))
  }

  lemma ReadyToInsert(w: World, k: Id, now: int)
    requires k in w.tasks && w.tasks[k].phase == Searching && !Throttled(w.store, w.tasks[k].subject, now)
    requires |Mine(w.store, w.tasks[k].subject.recipient)| < LIMIT
    ensures Ready(w, k, now) == w.(tasks := w.tasks[k := w.tasks[k].(phase := Inserting)])
  {
    var searched := Next(w, Search(k, now));
    assert searched.store == w.store && searched.tasks == w.tasks[k := w.tasks[k].(phase := Counting)];
  }

  /** Both have searched and counted before either inserts. */
  function BothReady(w: World, now: int): World {
    Ready(Ready(w, 1, now), 2, now)
  }

  lemma BothInsert(w: World, now: int)
    requires 1 in w.tasks && 2 in w.tasks && w.tasks[1].phase == Searching && w.tasks[2].phase == Searching
    requires !Throttled(w.store, w.tasks[1].subject, now) && !Throttled(w.store, w.tasks[2].subject, now)
    requires |Mine(w.store, w.tasks[1].subject.recipient)| < LIMIT
    requires |Mine(w.store, w.tasks[2].subject.recipient)| < LIMIT
    ensures var end := Next(Next(BothReady(w, now), Insert(1, now)), Insert(2, now));
      var one, two := w.tasks[1], w.tasks[2];
      end.store == w.store[one.id := Notice(one.subject, now)][two.id := Notice(two.subject, now)]
  {
    ReadyToInsert(w, 1, now);
    ReadyToInsert(Ready(w, 1, now), 2, now);
    var both := BothReady(w, now);
    InsertsItsRow(both, 1, now);
    InsertsItsRow(Next(both, Insert(1, now)), 2, now);
  }

  lemma InsertsItsRow(w: World, k: Id, stamp: int)
    requires k in w.tasks && w.tasks[k].phase == Inserting
    ensures var task := w.tasks[k];
      Next(w, Insert(k, stamp))
      == World(w.store[task.id := Notice(task.subject, stamp)], w.tasks[k := task.(phase := Done)])
  {
    var task := w.tasks[k];
    var notice := Notice(task.subject, stamp);
    assert w.store - {} + map[task.id := notice] == w.store[task.id := notice];
  }

  /** Two tasks that both count forty-nine leave fifty-one. */
  lemma FiftyOne(w: World, now: int)
    requires FreshIds(w) && 1 in w.tasks && 2 in w.tasks
    requires w.tasks[1].phase == Searching && w.tasks[2].phase == Searching
    requires w.tasks[1].subject.recipient == w.tasks[2].subject.recipient
    requires !Throttled(w.store, w.tasks[1].subject, now) && !Throttled(w.store, w.tasks[2].subject, now)
    requires |Mine(w.store, w.tasks[1].subject.recipient)| == 49
    ensures var end := Next(Next(BothReady(w, now), Insert(1, now)), Insert(2, now));
      |Mine(end.store, w.tasks[1].subject.recipient)| == 51
  {
    BothInsert(w, now);
    TwoMore(w.store, w.tasks[1].id, Notice(w.tasks[1].subject, now), w.tasks[2].id, Notice(w.tasks[2].subject, now));
  }

  lemma TwoMore(store: Store, i: Id, one: Notice, j: Id, two: Notice)
    requires i !in store && j !in store && i != j && one.subject.recipient == two.subject.recipient
    ensures |Mine(store[i := one][j := two], one.subject.recipient)| == |Mine(store, one.subject.recipient)| + 2
  {
    InsertedRows(store, i, one, one.subject.recipient);
    InsertedRows(store[i := one], j, two, one.subject.recipient);
  }

  /** Two identical ones that both miss the other leave both. */
  lemma TwinNotices(w: World, now: int)
    requires FreshIds(w) && 1 in w.tasks && 2 in w.tasks
    requires w.tasks[1].phase == Searching && w.tasks[2].phase == Searching && w.tasks[1].subject == w.tasks[2].subject
    requires !Throttled(w.store, w.tasks[1].subject, now)
    requires |Mine(w.store, w.tasks[1].subject.recipient)| < LIMIT
    ensures !Spaced(Next(Next(BothReady(w, now), Insert(1, now)), Insert(2, now)).store)
  {
    BothInsert(w, now);
    var end := Next(Next(BothReady(w, now), Insert(1, now)), Insert(2, now)).store;
    assert end[w.tasks[1].id] == end[w.tasks[2].id] == Notice(w.tasks[1].subject, now);
  }
}
