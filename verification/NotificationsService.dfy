/** `createNotification` as it runs on the notification table. */
module NotificationRequests {
  import opened Domain
  import opened Notifications

  lemma {:induction false} SomeOldest(store: Store, rows: set<Id>)
    requires rows <= store.Keys && rows != {}
    ensures exists n :: n in rows && forall m :: m in rows ==> store[n].created <= store[m].created
    decreases rows
  {
    var k :| k in rows;
    if rows - {k} == {} {
      assert forall m :: m in rows ==> m == k || m in rows - {k};
    } else {
      SomeOldest(store, rows - {k});
      var n :| n in rows - {k} && forall m :: m in rows - {k} ==> store[n].created <= store[m].created;
      var first := if store[k].created < store[n].created then k else n;
      assert forall m :: m in rows ==> store[first].created <= store[m].created;
    }
  }

  class NotificationsService {
    var table: Store

    /** The `k` oldest notifications of a recipient. */
    method FindOldest(r: Id, k: nat) returns (gone: set<Id>)
      requires k <= |Mine(table, r)|
      ensures Oldest(table, r, gone, k)
    {
      gone := {};
      var rest := Mine(table, r);
      for i := 0 to k
        invariant Oldest(table, r, gone, i) && rest == Mine(table, r) - gone && |rest| == |Mine(table, r)| - i
      {
        SomeOldest(table, rest);
        var n :| n in rest && forall m :: m in rest ==> table[n].created <= table[m].created;
        OneMoreOldest(table, r, gone, i, n);
        gone, rest := gone + {n}, rest - {n};
      }
    }

    /** A repetition within the minute is dropped; otherwise the oldest make room. */
    method CreateNotification(id: Id, subject: Subject, now: int, stamp: int) returns (created: bool)
      requires id !in table
      modifies this
      ensures Creates(old(table), table, id, subject, now, stamp)
      ensures created <==> id in table
      ensures created <==> forall n :: n in old(table) ==> !Repeats(old(table)[n], subject, now)
    {
      if exists n :: n in table && table[n].subject == subject && now - WINDOW <= table[n].created { return false; }
      assert !Throttled(table, subject, now);
      var count := |Mine(table, subject.recipient)|;
      var gone: set<Id> := {};
      if LIMIT <= count {
        gone := FindOldest(subject.recipient, count - LIMIT + 1);
        table := table - gone;
      }
      assert Oldest(old(table), subject.recipient, gone, Excess(count));
      table := table[id := Notice(subject, stamp)];
      assert table == Added(old(table), gone, id, subject, stamp);
      created := true;
    }
  }
}
