/** The backend as one state machine: every accepted request is one transaction on the shared
    tables, every refused one changes nothing. */
module System {
  import opened Domain
  import opened Inventory
  import opened Dispatch
  import opened Tenancy
  import Capacity

  datatype Request =
    | DoRegister(id: Id, goods: GoodsDto)
    | DoUpdateStatus(id: Id, status: GoodsStatus, slot: Option<Id>)
    | DoTransferSlot(id: Id, target: Id)
    | DoReconcile
    | DoCreateOrder(id: Id, order: OrderRequest)
    | DoUpdateOrder(id: Id, to: OrderStatus, vehicle: Field, driver: Field)
    | DoReceive(id: Id, counted: nat)
    | DoSubmitPod(id: Id)
    | DoRentSpace(id: Id, rent: RentDto, start: int)
    | DoChangeWarehouse(source: Id, target: Id)
    | DoPay(id: Id, amount: int)
    | DoVerify(id: Id, verdict: Verdict)
    | DoDeleteUser(id: Id)

  datatype Call = Call(request: Request, actor: Actor, now: int)

  ghost function Apply(st: State, c: Call): Reply<State> {
    match c.request
    case DoRegister(id, dto) => Register(st, id, dto, c.actor, c.now)
    case DoUpdateStatus(id, s, slot) => UpdateStatus(st, id, s, slot, c.actor)
    case DoTransferSlot(id, target) => TransferSlot(st, id, target, c.actor)
    case DoReconcile => Accepted(Capacity.Reconciled(st))
    case DoCreateOrder(id, req) => CreateOrder(st, id, req, c.actor, c.now)
    case DoUpdateOrder(id, s, v, d) => UpdateOrder(st, id, s, v, d, c.actor, c.now)
    case DoReceive(id, counted) => ReceiveInbound(st, id, counted, c.actor)
    case DoSubmitPod(id) => SubmitPod(st, id, c.actor)
    case DoRentSpace(id, dto, start) => RentSpace(st, id, dto, c.actor, start)
    case DoChangeWarehouse(source, target) => ChangeWarehouse(st, source, target, c.actor)
    case DoPay(id, amount) => PayInvoice(st, id, amount, c.actor, c.now)
    case DoVerify(id, verdict) => VerifyPayment(st, id, verdict, c.actor, c.now)
    case DoDeleteUser(id) => DeleteUser(st, id, c.actor)
  }

  ghost function After(st: State, c: Call): State {
    match Apply(st, c) case Accepted(s) => s case Refused => st
  }

  ghost function Run(st: State, calls: seq<Call>): State
    decreases |calls|
  {
    if calls == [] then st else Run(After(st, calls[0]), calls[1..])
  }

  lemma RunStep(st: State, c: Call, rest: seq<Call>)
    ensures Run(st, [c] + rest) == Run(After(st, c), rest)
  {
    assert ([c] + rest)[1..] == rest;
  }

  /** `guard` holds of every call in the state it arrives in. */
  ghost predicate Guarded(st: State, calls: seq<Call>, guard: (State, Call) -> bool)
    decreases |calls|
  {
    calls == [] || (guard(st, calls[0]) && Guarded(After(st, calls[0]), calls[1..], guard))
  }

  ghost predicate Kept(inv: State -> bool, guard: (State, Call) -> bool) {
    forall st, c :: inv(st) && guard(st, c) ==> inv(After(st, c))
  }

  /** What every guarded call keeps, every guarded run keeps. */
  lemma {:induction false} RunKeeps(inv: State -> bool, guard: (State, Call) -> bool, st: State, calls: seq<Call>)
    requires Kept(inv, guard) && inv(st) && Guarded(st, calls, guard)
    ensures inv(Run(st, calls))
    decreases |calls|
  {
    if calls != [] {
      RunKeeps(inv, guard, After(st, calls[0]), calls[1..]);
    }
  }

  ghost predicate Always(st: State, c: Call) { true }

  lemma {:induction false} Unguarded(st: State, calls: seq<Call>)
    ensures Guarded(st, calls, Always)
    decreases |calls|
  {
    if calls != [] {
      Unguarded(After(st, calls[0]), calls[1..]);
    }
  }
}
