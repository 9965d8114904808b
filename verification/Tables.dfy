/** The database behind the services: its tables, and the aggregate queries they run. */
module Tables {
  import opened Domain
  import opened Sums
  import opened Capacity

  /** A request answers `ok` and leaves `after` exactly as its specification says. */
  ghost predicate Does(reply: Reply<State>, ok: bool, before: State, after: State) {
    ok == reply.Accepted? && after == if ok then reply.value else before
  }

  /** `reduce`: the rows one after another, in whatever order they come. */
  method Reduce(rows: map<Id, int>) returns (total: int)
    ensures total == Sum(rows)
  {
    total := 0;
    var rest := rows;
    while rest != map[]
      invariant total + Sum(rest) == Sum(rows)
      decreases rest.Keys
    {
      var k :| k in rest;
      Pick(rest, k);
      total := total + rest[k];
      rest := rest - {k};
    }
  }

  class Database {
    var goods: map<Id, Goods>
    var slots: map<Id, Slot>
    var houses: map<Id, Warehouse>
    var orders: map<Id, Order>
    var vehicles: map<Id, Vehicle>
    var users: map<Id, User>
    var invoices: map<Id, Invoice>

    ghost function Snapshot(): State
      reads this
    {
      State(goods, slots, houses, orders, vehicles, users, invoices)
    }

    /** `aggregate` over every goods row but one that a filter selects. */
    method Aggregate(where: Goods -> bool, measure: Goods -> int, except: set<Id>) returns (total: int)
      ensures total == Measure(goods - except, where, measure)
    {
      var rows := map g | g in goods && g !in except && where(goods[g]) :: measure(goods[g]);
      assert rows == Rows(goods - except, where, measure);
      total := Reduce(rows);
    }
  }
}
