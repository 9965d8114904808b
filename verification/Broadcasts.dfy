/** `notifyRole`: one notification for every account of a role, created concurrently. Each task is
    cut at its five database calls. */
module Broadcasts {
  import opened Domain
  import opened Notifications

  datatype Phase = Searching | Counting | Choosing(count: nat) | Deleting(gone: set<Id>) | Inserting | Done

  /** The notification for one recipient: the id its row gets, and how far its creation is. */
  datatype Task = Task(subject: Subject, id: Id, phase: Phase)

  datatype World = World(store: Store, tasks: map<Id, Task>)

  /** One database call of recipient `r`'s task. */
  datatype Step =
    | Search(r: Id, now: int)
    | Count(r: Id)
    | Choose(r: Id, gone: set<Id>)
    | Remove(r: Id)
    | Insert(r: Id, stamp: int)

  /** `take`: no more rows than there are. */
  function AtMost(k: nat, rows: nat): nat {
    if k < rows then k else rows
  }

  /** A call its recipient is not at, or a choice that is not of its oldest rows, does nothing. */
  predicate Enabled(w: World, step: Step) {
    && step.r in w.tasks
    && var phase := w.tasks[step.r].phase;
    match step
    case Search(_, _) => phase.Searching?
    case Count(_) => phase.Counting?
    case Choose(r, gone) =>
      var recipient := w.tasks[r].subject.recipient;
      phase.Choosing? && Oldest(w.store, recipient, gone, AtMost(Excess(phase.count), |Mine(w.store, recipient)|))
    case Remove(_) => phase.Deleting?
    case Insert(_, _) => phase.Inserting?
  }

  /** A call moves its task on, and deletes and adds rows. */
  datatype Effect = Effect(phase: Phase, dropped: set<Id>, added: Store)

  function EffectOf(w: World, step: Step): Effect
    requires Enabled(w, step)
  {
    var task := w.tasks[step.r];
    match step
    case Search(_, now) => Effect(if Throttled(w.store, task.subject, now) then Done else Counting, {}, map[])
    case Count(r) =>
      var count := |Mine(w.store, task.subject.recipient)|;
      Effect(if LIMIT <= count then Choosing(count) else Inserting, {}, map[])
    case Choose(_, gone) => Effect(if gone == {} then Inserting else Deleting(gone), {}, map[])
    case Remove(_) => Effect(Inserting, task.phase.gone, map[])
    case Insert(_, stamp) => Effect(Done, {}, map[task.id := Notice(task.subject, stamp)])
  }

  function Apply(w: World, r: Id, e: Effect): World
    requires r in w.tasks
  {
    World(w.store - e.dropped + e.added, w.tasks[r := w.tasks[r].(phase := e.phase)])
  }

  function Next(w: World, step: Step): World {
    if Enabled(w, step) then Apply(w, step.r, EffectOf(w, step)) else w
  }

  /** Generated ids are unique, and what a task is about to delete belongs to its recipient. */
  predicate Separate(w: World) {
    && (forall r :: r in w.tasks ==> w.tasks[r].subject.recipient == r)
    && (forall r, q :: r in w.tasks && q in w.tasks && w.tasks[r].id == w.tasks[q].id ==> r == q)
    && (forall r :: r in w.tasks && w.tasks[r].id in w.store ==> w.tasks[r].id in Mine(w.store, r))
    && (forall r :: r in w.tasks && w.tasks[r].phase.Deleting? ==> w.tasks[r].phase.gone <= Mine(w.store, r))
  }

  /** What recipient `r`'s task can see is the same. */
  predicate SameView(w: World, after: World, r: Id) {
    && (r in after.tasks <==> r in w.tasks) && (r in w.tasks ==> after.tasks[r] == w.tasks[r])
    && Mine(after.store, r) == Mine(w.store, r)
    && (forall n :: n in Mine(w.store, r) ==> after.store[n] == w.store[n])
  }

  /** A step leaves every other recipient's rows and task alone. */
  lemma StepIsLocal(w: World, step: Step, r: Id)
    requires Separate(w) && step.r != r
    ensures SameView(w, Next(w, step), r)
  {
  }

  lemma StepKeepsSeparate(w: World, step: Step)
    requires Separate(w)
    ensures Separate(Next(w, step))
  {
    forall r | r in w.tasks && r != step.r ensures SameView(w, Next(w, step), r) {
      StepIsLocal(w, step, r);
    }
  }

  /** A step depends on nothing but what its own task can see. */
  lemma StepReadsItsView(w: World, after: World, step: Step)
    requires Separate(w) && Separate(after) && SameView(w, after, step.r)
    ensures Enabled(w, step) <==> Enabled(after, step)
    ensures Enabled(w, step) ==> EffectOf(w, step) == EffectOf(after, step)
  {
    if step.r in w.tasks {
      var subject := w.tasks[step.r].subject;
      if step.Search? {
        assert forall n :: n in w.store && w.store[n].subject == subject ==> n in Mine(w.store, step.r);
        assert forall n :: n in after.store && after.store[n].subject == subject ==> n in Mine(after.store, step.r);
      }
    }
  }

  lemma StepsCommute(w: World, a: Step, b: Step)
    requires Separate(w) && a.r != b.r
    ensures Next(Next(w, a), b) == Next(Next(w, b), a)
  {
    StepIsLocal(w, a, b.r);
    StepIsLocal(w, b, a.r);
    StepKeepsSeparate(w, a);
    StepKeepsSeparate(w, b);
    StepReadsItsView(w, Next(w, a), b);
    StepReadsItsView(w, Next(w, b), a);
    if Enabled(w, a) && Enabled(w, b) {
      EffectsCommute(w, a, b);
    }
  }

  lemma EditsCommute(store: Store, d: set<Id>, a: Store, e: set<Id>, b: Store)
    requires a.Keys !! b.Keys && d !! b.Keys && e !! a.Keys
    ensures store - d + a - e + b == store - e + b - d + a
  {
  }

  /** What a step touches: rows of its recipient, and the row it inserts. */
  lemma EffectIsOwn(w: World, step: Step)
    requires Separate(w) && Enabled(w, step)
    ensures EffectOf(w, step).dropped <= Mine(w.store, step.r)
    ensures EffectOf(w, step).added.Keys <= {w.tasks[step.r].id}
  {
  }

  lemma EffectsCommute(w: World, a: Step, b: Step)
    requires Separate(w) && a.r != b.r && Enabled(w, a) && Enabled(w, b)
    ensures var e, f := EffectOf(w, a), EffectOf(w, b);
      Apply(Apply(w, a.r, e), b.r, f) == Apply(Apply(w, b.r, f), a.r, e)
  {
    var e, f := EffectOf(w, a), EffectOf(w, b);
    EffectIsOwn(w, a);
    EffectIsOwn(w, b);
    EditsCommute(w.store, e.dropped, e.added, f.dropped, f.added);
  }

  function Interleave(w: World, steps: seq<Step>): World
    decreases |steps|
  {
    if steps == [] then w else Interleave(Next(w, steps[0]), steps[1..])
  }

  /** The calls of one recipient, in order. */
  function CallsOf(steps: seq<Step>, r: Id): seq<Step> {
    if steps == [] then [] else (if steps[0].r == r then [steps[0]] else []) + CallsOf(steps[1..], r)
  }

  function CallsOfOthers(steps: seq<Step>, r: Id): seq<Step> {
    if steps == [] then [] else (if steps[0].r == r then [] else [steps[0]]) + CallsOfOthers(steps[1..], r)
  }

  /** Recipient after recipient, each from its first call to its last. */
  function OneByOne(steps: seq<Step>, recipients: seq<Id>): seq<Step>
    decreases |recipients|
  {
    if recipients == [] then [] else
      CallsOf(steps, recipients[0]) + OneByOne(CallsOfOthers(steps, recipients[0]), recipients[1..])
  }

  lemma {:induction false} Sequence(w: World, first: seq<Step>, second: seq<Step>)
    ensures Interleave(w, first + second) == Interleave(Interleave(w, first), second)
    decreases |first|
  {
    if first == [] {
      assert first + second == second;
    } else {
      assert (first + second)[1..] == first[1..] + second;
      Sequence(Next(w, first[0]), first[1..], second);
    }
  }

  lemma {:induction false} InterleaveKeepsSeparate(w: World, steps: seq<Step>)
    requires Separate(w)
    ensures Separate(Interleave(w, steps))
    decreases |steps|
  {
    if steps != [] {
      StepKeepsSeparate(w, steps[0]);
      InterleaveKeepsSeparate(Next(w, steps[0]), steps[1..]);
    }
  }

  /** A call of another recipient can wait until all of `r`'s calls are over. */
  lemma {:induction false} Postpone(w: World, step: Step, calls: seq<Step>)
    requires Separate(w) && forall k :: 0 <= k < |calls| ==> calls[k].r != step.r
    ensures Interleave(Next(w, step), calls) == Next(Interleave(w, calls), step)
    decreases |calls|
  {
    if calls != [] {
      StepsCommute(w, step, calls[0]);
      StepKeepsSeparate(w, calls[0]);
      Postpone(Next(w, calls[0]), step, calls[1..]);
    }
  }

  lemma {:induction false} AllOf(steps: seq<Step>, r: Id)
    ensures forall k :: 0 <= k < |CallsOf(steps, r)| ==> CallsOf(steps, r)[k].r == r
    ensures forall k :: 0 <= k < |CallsOfOthers(steps, r)| ==>
        CallsOfOthers(steps, r)[k].r != r && CallsOfOthers(steps, r)[k] in steps
  {
    if steps != [] {
      AllOf(steps[1..], r);
    }
  }

  lemma Cons(w: World, step: Step, rest: seq<Step>)
    ensures Interleave(w, [step] + rest) == Interleave(Next(w, step), rest)
  {
    assert ([step] + rest)[1..] == rest;
  }

  lemma SplitFirst(step: Step, rest: seq<Step>, r: Id)
    ensures var own, others := CallsOf(rest, r), CallsOfOthers(rest, r);
      CallsOf([step] + rest, r) + CallsOfOthers([step] + rest, r)
      == if step.r == r then [step] + (own + others) else own + ([step] + others)
  {
    assert ([step] + rest)[1..] == rest;
  }

  lemma {:induction false} BringForward(w: World, steps: seq<Step>, r: Id)
    requires Separate(w)
    ensures Interleave(w, steps) == Interleave(w, CallsOf(steps, r) + CallsOfOthers(steps, r))
    decreases |steps|
  {
    if steps != [] {
      var step, rest := steps[0], steps[1..];
      assert steps == [step] + rest;
      StepKeepsSeparate(w, step);
      BringForward(Next(w, step), rest, r);
      SplitFirst(step, rest, r);
      if step.r == r {
        Cons(w, step, CallsOf(rest, r) + CallsOfOthers(rest, r));
      } else {
        AllOf(rest, r);
        BringPast(w, step, CallsOf(rest, r), CallsOfOthers(rest, r));
      }
    }
  }

  lemma BringPast(w: World, step: Step, own: seq<Step>, others: seq<Step>)
    requires Separate(w) && forall k :: 0 <= k < |own| ==> own[k].r != step.r
    ensures Interleave(Next(w, step), own + others) == Interleave(w, own + ([step] + others))
  {
    Sequence(Next(w, step), own, others);
    Postpone(w, step, own);
    Sequence(w, own, [step] + others);
    Cons(Interleave(w, own), step, others);
  }

  /** However the calls of the recipients' tasks interleave, the tables end as if the tasks had run
      one after another, in any order of the recipients. */
  lemma {:induction false} InterleavingIsSequential(w: World, steps: seq<Step>, recipients: seq<Id>)
    requires Separate(w) && forall k :: 0 <= k < |steps| ==> steps[k].r in recipients
    ensures Interleave(w, steps) == Interleave(w, OneByOne(steps, recipients))
    decreases |recipients|
  {
    if recipients == [] {
      assert steps == [];
    } else {
      var r := recipients[0];
      var own, others := CallsOf(steps, r), CallsOfOthers(steps, r);
      AllOf(steps, r);
      BringForward(w, steps, r);
      Sequence(w, own, others);
      InterleaveKeepsSeparate(w, own);
      forall k | 0 <= k < |others| ensures others[k].r in recipients[1..] {
        assert others[k] in steps && others[k].r in recipients;
      }
      InterleavingIsSequential(Interleave(w, own), others, recipients[1..]);
      Sequence(w, own, OneByOne(others, recipients[1..]));
    }
  }

  /** One task's calls without a pause. */
  function Alone(w: World, r: Id, now: int, gone: set<Id>, stamp: int): World {
    Next(Next(Next(Next(Next(w, Search(r, now)), Count(r)), Choose(r, gone)), Remove(r)), Insert(r, stamp))
  }

  lemma RestOfTask(w: World, r: Id, gone: set<Id>, stamp: int)
    requires r in w.tasks && w.tasks[r].phase == Counting && w.tasks[r].subject.recipient == r
    requires Oldest(w.store, r, gone, Excess(|Mine(w.store, r)|))
    ensures var task := w.tasks[r];
      Next(Next(Next(Next(w, Count(r)), Choose(r, gone)), Remove(r)), Insert(r, stamp)).store
      == Added(w.store, gone, task.id, task.subject, stamp)
  {
    var counted := Next(w, Count(r));
    RoomIsMade(w, r, gone);
    var removed := Next(Next(counted, Choose(r, gone)), Remove(r));
    assert removed == World(w.store - gone, w.tasks[r := w.tasks[r].(phase := Inserting)]);
  }

  lemma RoomIsMade(w: World, r: Id, gone: set<Id>)
    requires r in w.tasks && w.tasks[r].phase == Counting && w.tasks[r].subject.recipient == r
    requires Oldest(w.store, r, gone, Excess(|Mine(w.store, r)|))
    ensures Next(Next(Next(w, Count(r)), Choose(r, gone)), Remove(r))
         == World(w.store - gone, w.tasks[r := w.tasks[r].(phase := Inserting)])
  {
    var counted := Next(w, Count(r));
    if |Mine(w.store, r)| < LIMIT {
      assert gone == {};
    } else {
      assert gone != {};
      assert counted == World(w.store, w.tasks[r := w.tasks[r].(phase := Choosing(|Mine(w.store, r)|))]);
    }
  }

  /** That is one `createNotification`. */
  lemma OneTask(w: World, r: Id, now: int, gone: set<Id>, stamp: int)
    requires r in w.tasks && w.tasks[r].phase == Searching && w.tasks[r].subject.recipient == r
    requires Oldest(w.store, r, gone, Excess(|Mine(w.store, r)|))
    ensures Creates(w.store, Alone(w, r, now, gone, stamp).store, w.tasks[r].id, w.tasks[r].subject, now, stamp)
  {
    var searched := Next(w, Search(r, now));
    assert searched.store == w.store;
    if !Throttled(w.store, w.tasks[r].subject, now) {
      RestOfTask(searched, r, gone, stamp);
    }
  }
}
