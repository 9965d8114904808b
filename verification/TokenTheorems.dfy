/** Every refresh token is sent at most once, every waiting call runs at most once, and no refresh
    is refused because an earlier refresh of the same tab spent the token. */
module TokenTheorems {
  import opened Domain
  import opened Rotation
  import opened Tokens

  predicate NoRepeats<T(==)>(s: seq<T>) {
    forall i, j :: 0 <= i < j < |s| ==> s[i] != s[j]
  }

  /** The call is past the point where it can still bring new tokens. */
  predicate Past(w: World, call: Id) {
    call in w.seen && (call in w.flights ==> w.flights[call] == Retrying)
  }

  /** The tab has taken delivery of the token. */
  predicate Delivered(w: World, t: Token) {
    && t in w.server.rows && t !in w.logins
    && (w.server.rows[t].issuedFor.Some? ==> Past(w, w.server.rows[t].issuedFor.value))
  }

  /** A stored token is unsent unless its refresh is under way. */
  predicate Unsent(w: World) {
    w.client.stored.Some? && w.client.stored.value in w.sent ==> w.client.refreshing
  }

  predicate TabOrdered(w: World) {
    && NoRepeats(w.sent) && Unsent(w)
    && (forall t :: t in w.sent ==> Delivered(w, t))
    && (w.client.stored.Some? ==> Delivered(w, w.client.stored.value))
  }

  predicate FlightsOrdered(w: World) {
    && w.flights.Keys <= w.seen && w.server.jobs.Keys <= w.seen
    && (forall t :: t in w.logins ==> t in w.server.rows && w.server.rows[t].issuedFor == None)
    && (forall c :: c in w.flights && w.flights[c].Reading? ==> IssuedTo(w.server, w.flights[c].token, c))
    && ServerOrdered(w.server)
  }

  predicate IssuedTo(s: Server, t: Token, c: Id) {
    t in s.rows && s.rows[t].issuedFor == Some(c)
  }

  predicate ServerOrdered(s: Server) {
    && (forall t :: t in s.rows && s.rows[t].issuedFor.Some? ==> s.rows[t].issuedFor.value in s.jobs)
    && (forall c :: c in s.jobs && s.jobs[c].phase.Replied? && s.jobs[c].phase.tokens.Some? ==>
          IssuedTo(s, s.jobs[c].phase.tokens.value, c))
  }

  predicate SpentByJob(s: Server, t: Token, c: Id) {
    c in s.jobs && s.jobs[c].token == t && (s.jobs[c].phase == Spent || s.jobs[c].phase.Replied?)
  }

  /** One request for each token, and the rows know which request spent theirs. */
  predicate OneEach(s: Server) {
    && (forall c, d :: c in s.jobs && d in s.jobs && s.jobs[c].token == s.jobs[d].token ==> c == d)
    && (forall t :: t in s.rows && s.rows[t].spentBy.Some? ==> SpentByJob(s, t, s.rows[t].spentBy.value))
  }

  predicate JobsOrdered(w: World) {
    && (forall c :: c in w.server.jobs ==> w.server.jobs[c].token in w.sent)
    && OneEach(w.server)
  }

  predicate Ordered(w: World) {
    TabOrdered(w) && FlightsOrdered(w) && JobsOrdered(w)
  }

  // ---- the server's calls ----

  lemma LookupKeepsServer(s: Server, c: Call)
    requires OneEach(s) && ServerOrdered(s) && CanServe(s, c) && c.Lookup?
    ensures OneEach(Serve(s, c)) && ServerOrdered(Serve(s, c))
  {
    var after := Serve(s, c);
    forall t | t in after.rows && after.rows[t].spentBy.Some?
      ensures SpentByJob(after, t, after.rows[t].spentBy.value)
    {
      assert SpentByJob(s, t, s.rows[t].spentBy.value);
    }
  }

  lemma SpendKeepsServer(s: Server, c: Call)
    requires OneEach(s) && ServerOrdered(s) && CanServe(s, c) && c.Spend?
    ensures OneEach(Serve(s, c)) && ServerOrdered(Serve(s, c))
  {
    var after := Serve(s, c);
    forall t | t in after.rows && after.rows[t].spentBy.Some?
      ensures SpentByJob(after, t, after.rows[t].spentBy.value)
    {
      assert t != s.jobs[c.call].token ==> SpentByJob(s, t, s.rows[t].spentBy.value);
    }
  }

  lemma ReissueKeepsServer(s: Server, c: Call)
    requires OneEach(s) && ServerOrdered(s) && CanServe(s, c) && c.Reissue?
    ensures OneEach(Serve(s, c)) && ServerOrdered(Serve(s, c))
  {
    var after := Serve(s, c);
    forall t | t in after.rows && after.rows[t].spentBy.Some?
      ensures SpentByJob(after, t, after.rows[t].spentBy.value)
    {
      assert SpentByJob(s, t, s.rows[t].spentBy.value);
    }
  }

  lemma RevokeKeepsServer(s: Server, c: Call)
    requires OneEach(s) && ServerOrdered(s) && c.Revoke?
    ensures OneEach(Serve(s, c)) && ServerOrdered(Serve(s, c))
  {
    var after := Serve(s, c);
    forall t | t in after.rows && after.rows[t].spentBy.Some?
      ensures SpentByJob(after, t, after.rows[t].spentBy.value)
    {
      assert SpentByJob(s, t, s.rows[t].spentBy.value);
    }
  }

  predicate Answers(c: Call) {
    !c.Issue? && !c.Arrive?
  }

  lemma ServingKeepsServer(s: Server, c: Call)
    requires OneEach(s) && ServerOrdered(s) && CanServe(s, c) && Answers(c)
    ensures OneEach(Serve(s, c)) && ServerOrdered(Serve(s, c))
  {
    match c
    case Lookup(_, _) => LookupKeepsServer(s, c);
    case Spend(_) => SpendKeepsServer(s, c);
    case Reissue(_, _, _) => ReissueKeepsServer(s, c);
    case Revoke(_) => RevokeKeepsServer(s, c);
  }

  /** Rows only gain and requests keep their tokens. */
  lemma ServingKeepsRows(s: Server, c: Call)
    requires CanServe(s, c) && Answers(c)
    ensures var after := Serve(s, c);
      && (forall t :: t in s.rows ==> t in after.rows && after.rows[t].issuedFor == s.rows[t].issuedFor)
      && after.jobs.Keys == s.jobs.Keys && (forall d :: d in s.jobs ==> after.jobs[d].token == s.jobs[d].token)
  {
  }

  lemma ServingKeepsOrdered(w: World, c: Call)
    requires Ordered(w) && Enabled(w, Serving(c))
    ensures Ordered(Take(w, Serving(c)))
  {
    ServingKeepsServer(w.server, c);
    ServingKeepsRows(w.server, c);
  }

  // ---- the tab's steps ----

  /** Delivered tokens stay delivered: only the step that stores new tokens moves the tab. */
  lemma DeliveredStays(w: World, step: Step, t: Token)
    requires FlightsOrdered(w) && Enabled(w, step) && Delivered(w, t)
    ensures Delivered(Take(w, step), t)
  {
  }

  lemma SendKeepsOrdered(w: World, call: Id)
    requires Ordered(w) && Enabled(w, Got401(call))
    ensures Ordered(Receive401(w, call))
  {
    var after := Receive401(w, call);
    forall t | t in w.server.rows && Delivered(w, t) ensures Delivered(after, t) {
      DeliveredStays(w, Got401(call), t);
    }
    if React(w.client).AskWith? {
      ArrivalKeepsServer(w.server, call, w.client.stored.value, w.sent);
    }
  }

  lemma ArrivalKeepsServer(s: Server, call: Id, t: Token, sent: seq<Token>)
    requires OneEach(s) && ServerOrdered(s) && call !in s.jobs
    requires t !in sent && forall c :: c in s.jobs ==> s.jobs[c].token in sent
    ensures OneEach(Serve(s, Arrive(call, t))) && ServerOrdered(Serve(s, Arrive(call, t)))
  {
    var after := Serve(s, Arrive(call, t));
    forall u | u in after.rows && after.rows[u].spentBy.Some?
      ensures SpentByJob(after, u, after.rows[u].spentBy.value)
    {
      assert SpentByJob(s, u, s.rows[u].spentBy.value);
    }
  }

  lemma StoreKeepsOrdered(w: World, call: Id)
    requires Ordered(w) && Enabled(w, Read(call))
    ensures Ordered(Take(w, Read(call)))
  {
    var t := w.flights[call].token;
    assert IssuedTo(w.server, t, call);
    assert t !in w.sent;
    forall u | u in w.sent ensures Delivered(Take(w, Read(call)), u) {
      DeliveredStays(w, Read(call), u);
    }
  }

  lemma LoginKeepsOrdered(w: World, step: Step)
    requires Ordered(w) && Enabled(w, step) && (step.IssueLogin? || step.StoreLogin? || step.SignOut?)
    ensures Ordered(Take(w, step))
  {
    var after := Take(w, step);
    forall t | t in w.server.rows && Delivered(w, t) ensures Delivered(after, t) {
      DeliveredStays(w, step, t);
    }
    forall t | t in after.server.rows && after.server.rows[t].spentBy.Some?
      ensures SpentByJob(after.server, t, after.server.rows[t].spentBy.value)
    {
      assert SpentByJob(w.server, t, w.server.rows[t].spentBy.value);
    }
  }

  lemma ReplyKeepsOrdered(w: World, step: Step)
    requires Ordered(w) && Enabled(w, step) && (step.Answer? || step.Fail? || step.Retried?)
    ensures Ordered(Take(w, step))
  {
    var after := Take(w, step);
    assert after.server == w.server && after.sent == w.sent;
    forall t | t in w.server.rows && Delivered(w, t) ensures Delivered(after, t) {
      DeliveredStays(w, step, t);
    }
  }

  /** A reload during a refresh forgets that the stored token was sent. */
  predicate ReloadIsQuiet(w: World, step: Step) {
    step.Reload? && w.client.stored.Some? ==> w.client.stored.value !in w.sent
  }

  lemma ReloadAndOrdered(w: World)
    requires Ordered(w)
    ensures Ordered(Reloaded(w)) <==> ReloadIsQuiet(w, Reload)
  {
    forall t | t in w.server.rows && Delivered(w, t) ensures Delivered(Reloaded(w), t) {
      DeliveredStays(w, Reload, t);
    }
    assert Unsent(Reloaded(w)) <==> ReloadIsQuiet(w, Reload);
  }

  lemma StepAndOrdered(w: World, step: Step)
    requires Ordered(w)
    ensures Ordered(Next(w, step)) <==> ReloadIsQuiet(w, step)
  {
    if Enabled(w, step) {
      match step
      case Reload => ReloadAndOrdered(w);
      case Serving(c) => ServingKeepsOrdered(w, c);
      case Got401(call) => SendKeepsOrdered(w, call);
      case Read(call) => StoreKeepsOrdered(w, call);
      case IssueLogin(_, _) => LoginKeepsOrdered(w, step);
      case StoreLogin(_) => LoginKeepsOrdered(w, step);
      case SignOut => LoginKeepsOrdered(w, step);
      case _ => ReplyKeepsOrdered(w, step);
    }
  }

  // ---- the waiting calls ----

  function Callers(ran: seq<Run>): seq<Id> {
    seq(|ran|, i requires 0 <= i < |ran| => ran[i].call)
  }

  /** Waiting calls, in order, are calls that got their 401, and have not run. */
  predicate QueueOrdered(w: World) {
    && NoRepeats(Callers(w.ran) + w.client.queue)
    && (forall c :: c in Callers(w.ran) + w.client.queue ==> c in w.seen)
  }

  /** The call that this step makes wait. */
  function Waiting(w: World, step: Step): seq<Id> {
    if step.Got401? && Enabled(w, step) && React(w.client) == Wait then [step.call] else []
  }

  /** The tokens this step stores after a refresh. */
  function Storing(w: World, step: Step): seq<Token> {
    if step.Read? && Enabled(w, step) then [w.flights[step.call].token] else []
  }

  lemma QueueMoves(w: World, step: Step)
    requires !step.Reload?
    ensures var after := Next(w, step);
      Callers(after.ran) + after.client.queue == Callers(w.ran) + w.client.queue + Waiting(w, step)
    ensures Next(w, step).ran
         == w.ran + if Storing(w, step) == [] then [] else Runs(w.client.queue, Storing(w, step)[0])
  {
    var after := Next(w, step);
    if Storing(w, step) != [] {
      assert Callers(after.ran) + after.client.queue == Callers(w.ran) + w.client.queue;
    } else if Waiting(w, step) != [] {
      assert Callers(after.ran) + after.client.queue == Callers(w.ran) + w.client.queue + [step.call];
    } else {
      assert after.ran == w.ran && after.client.queue == w.client.queue;
    }
  }

  lemma ReloadKeepsQueue(w: World)
    requires QueueOrdered(w)
    ensures QueueOrdered(Reloaded(w))
  {
    var all := Callers(w.ran) + w.client.queue;
    assert Callers(Reloaded(w).ran) + [] == all[..|w.ran|];
  }

  lemma StepKeepsQueue(w: World, step: Step)
    requires QueueOrdered(w)
    ensures QueueOrdered(Next(w, step))
  {
    if step.Reload? {
      ReloadKeepsQueue(w);
    } else {
      QueueMoves(w, step);
      assert w.seen <= Next(w, step).seen;
    }
  }

  predicate Orderly(w: World) {
    Ordered(w) && QueueOrdered(w)
  }

  lemma StepAndOrderly(w: World, step: Step)
    requires Orderly(w)
    ensures Orderly(Next(w, step)) <==> ReloadIsQuiet(w, step)
  {
    StepAndOrdered(w, step);
    StepKeepsQueue(w, step);
  }

  // ---- whole runs ----

  predicate ReloadsAreQuiet(w: World, steps: seq<Step>)
    decreases |steps|
  {
    steps == [] || (ReloadIsQuiet(w, steps[0]) && ReloadsAreQuiet(Next(w, steps[0]), steps[1..]))
  }

  predicate OrderlyThroughout(w: World, steps: seq<Step>)
    decreases |steps|
  {
    Orderly(w) && (steps == [] || OrderlyThroughout(Next(w, steps[0]), steps[1..]))
  }

  /** The protocol is in order throughout a run exactly when no reload comes after the stored token
      was sent and before its successor is stored. */
  lemma {:induction false} QuietReloadsAreExact(w: World, steps: seq<Step>)
    requires Orderly(w)
    ensures OrderlyThroughout(w, steps) <==> ReloadsAreQuiet(w, steps)
    ensures ReloadsAreQuiet(w, steps) ==> Orderly(Interleave(w, steps))
    decreases |steps|
  {
    if steps != [] {
      StepAndOrderly(w, steps[0]);
      if ReloadIsQuiet(w, steps[0]) {
        QuietReloadsAreExact(Next(w, steps[0]), steps[1..]);
      }
    }
  }

  /** In every interleaving with quiet reloads each refresh token is sent at most once, and a stored
      token is unsent unless its refresh is under way. */
  lemma EachTokenIsSentOnce(steps: seq<Step>)
    requires ReloadsAreQuiet(START, steps)
    ensures NoRepeats(Interleave(START, steps).sent) && Unsent(Interleave(START, steps))
  {
    QuietReloadsAreExact(START, steps);
  }

  predicate NoReloads(steps: seq<Step>) {
    forall k :: 0 <= k < |steps| ==> !steps[k].Reload?
  }

  lemma {:induction false} WithoutReloads(w: World, steps: seq<Step>)
    requires NoReloads(steps)
    ensures ReloadsAreQuiet(w, steps)
    decreases |steps|
  {
    if steps != [] {
      WithoutReloads(Next(w, steps[0]), steps[1..]);
    }
  }

  /** After a reload that is not quiet the next 401 sends the stored token again. */
  lemma LoudReloadSendsAgain(w: World, call: Id)
    requires w.client.stored.Some? && w.client.stored.value in w.sent
    requires call !in w.seen && call !in w.server.jobs
    ensures !NoRepeats(Interleave(Reloaded(w), [Got401(call)]).sent)
  {
    var t := w.client.stored.value;
    var end := Next(Reloaded(w), Got401(call));
    assert [Got401(call)][1..] == [] && Interleave(Reloaded(w), [Got401(call)]) == Interleave(end, []);
    assert end.sent == w.sent + [t];
    var k :| 0 <= k < |w.sent| && w.sent[k] == t;
    assert end.sent[k] == end.sent[|w.sent|];
  }

  /** Whatever happens after a reload short of another one, no token is sent twice, exactly when the
      stored token was not sent before it. */
  lemma ReloadDecides(w: World)
    requires Orderly(w)
    ensures (forall steps :: NoReloads(steps) ==> NoRepeats(Interleave(Reloaded(w), steps).sent))
       <==> ReloadIsQuiet(w, Reload)
  {
    StepAndOrderly(w, Reload);
    if ReloadIsQuiet(w, Reload) {
      forall steps | NoReloads(steps) ensures NoRepeats(Interleave(Reloaded(w), steps).sent) {
        WithoutReloads(Reloaded(w), steps);
        QuietReloadsAreExact(Reloaded(w), steps);
      }
    } else {
      SomeId(w.seen);
      var call :| call !in w.seen;
      LoudReloadSendsAgain(w, call);
      assert NoReloads([Got401(call)]);
    }
  }

  lemma Apart<T>(s: seq<T>, t: seq<T>)
    requires NoRepeats(s + t)
    ensures forall x :: x in s ==> x !in t
  {
    forall i, j | 0 <= i < |s| && 0 <= j < |t| ensures s[i] != t[j] {
      assert (s + t)[i] == s[i] && (s + t)[|s| + j] == t[j];
    }
  }

  /** The calls that waited during a run, in order. */
  function Waited(w: World, steps: seq<Step>): seq<Id>
    decreases |steps|
  {
    if steps == [] then [] else Waiting(w, steps[0]) + Waited(Next(w, steps[0]), steps[1..])
  }

  /** The tokens that refreshes stored during a run, in order. */
  function Stored(w: World, steps: seq<Step>): seq<Token>
    decreases |steps|
  {
    if steps == [] then [] else Storing(w, steps[0]) + Stored(Next(w, steps[0]), steps[1..])
  }

  lemma {:induction false} QueueAlongRuns(w: World, steps: seq<Step>)
    requires NoReloads(steps)
    ensures var end := Interleave(w, steps);
      && Callers(end.ran) + end.client.queue == Callers(w.ran) + w.client.queue + Waited(w, steps)
      && w.ran <= end.ran
      && (forall k :: |w.ran| <= k < |end.ran| ==> end.ran[k].token in Stored(w, steps))
    decreases |steps|
  {
    if steps != [] {
      QueueMoves(w, steps[0]);
      QueueAlongRuns(Next(w, steps[0]), steps[1..]);
    }
  }

  lemma {:induction false} QueueStaysOrdered(w: World, steps: seq<Step>)
    requires QueueOrdered(w)
    ensures QueueOrdered(Interleave(w, steps))
    decreases |steps|
  {
    if steps != [] {
      StepKeepsQueue(w, steps[0]);
      QueueStaysOrdered(Next(w, steps[0]), steps[1..]);
    }
  }

  /** In every interleaving each waiting call runs at most once, and never while it still waits. On
      one page the calls that ran and then those that wait are all that ever waited, in their order,
      none lost; and each ran with tokens a refresh had stored. */
  lemma EachCallRunsOnce(steps: seq<Step>)
    ensures var w := Interleave(START, steps);
      && NoRepeats(Callers(w.ran)) && (forall c :: c in Callers(w.ran) ==> c !in w.client.queue)
      && (NoReloads(steps) ==>
            && Callers(w.ran) + w.client.queue == Waited(START, steps)
            && forall k :: 0 <= k < |w.ran| ==> w.ran[k].token in Stored(START, steps))
  {
    QueueStaysOrdered(START, steps);
    var w := Interleave(START, steps);
    assert NoRepeats(Callers(w.ran)) by {
      var all := Callers(w.ran) + w.client.queue;
      assert Callers(w.ran) == all[..|w.ran|];
    }
    Apart(Callers(w.ran), w.client.queue);
    if NoReloads(steps) {
      QueueAlongRuns(START, steps);
    }
  }

  /** In every interleaving with quiet reloads, when the server looks up a refresh no rotation has
      spent its token: only expiry or a sign-out elsewhere can have it refused. And rotation
      exchanges every token once. */
  lemma NoRefreshSpendsAnothers(steps: seq<Step>, call: Id, live: bool)
    requires ReloadsAreQuiet(START, steps)
    ensures var s := Interleave(START, steps).server;
      && Once(s)
      && (CanServe(s, Lookup(call, live)) ==>
            && s.jobs[call].token in s.rows && s.rows[s.jobs[call].token].spentBy == None
            && (Served(s, Lookup(call, live)).jobs[call].phase == Replied(None) <==>
                  !live || s.rows[s.jobs[call].token].revoked))
  {
    QuietReloadsAreExact(START, steps);
    var w := Interleave(START, steps);
    if CanServe(w.server, Lookup(call, live)) {
      var t := w.server.jobs[call].token;
      assert Delivered(w, t);
      assert w.server.rows[t].spentBy.Some? ==> SpentByJob(w.server, t, w.server.rows[t].spentBy.value);
    }
  }
}
