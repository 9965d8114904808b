/** Password resets, password changes and sign-ins, cut at their database calls as the refresh of
    tokens is: one-time reset tokens, and the sessions a new password ends. */
module Passwords {
  import opened Domain
  import opened Rotation

  const RESET_TTL := 3_600_000

  datatype Reset = Reset(user: Id, used: bool, expires: int)

  /** A request under way, past its last read: about to insert a reset token, to commit a reset, to
      write a password, to revoke the sessions after it, or to save a new session. */
  datatype Frame =
    | Resetting(user: Id)
    | Confirming(t: Token, next: string)
    | Changing(user: Id, next: string)
    | Revoking(user: Id)
    | SigningIn(user: Id)

  /** Account status and password, reset tokens, refresh tokens and their requests, the other requests
      under way, and every time a reset token was marked used. */
  datatype Accounts = Accounts(
    status: map<Id, UserStatus>, secret: map<Id, string>, resets: map<Token, Reset>, server: Server,
    open: map<Id, Frame>, marked: multiset<Token>)

  datatype Action =
    | Supersede(call: Id, user: Id)
    | Insert(call: Id, t: Token, now: int)
    | Find(call: Id, t: Token, next: string, now: int)
    | Commit(call: Id)
    | Check(call: Id, user: Id, current: string, next: string)
    | SetPassword(call: Id)
    | RevokeAll(call: Id)
    | Authenticate(call: Id, user: Id, password: string)
    | SaveSession(call: Id, t: Token)
    | SignOutOf(user: Id, session: Option<Token>)
    | SetStatus(user: Id, status: UserStatus)
    | Serving(c: Call)

  function SessionsOf(rows: map<Token, Row>, user: Id): set<Token> {
    set t | t in rows && rows[t].user == user
  }

  function UnusedOf(resets: map<Token, Reset>, user: Id): set<Token> {
    set t | t in resets && resets[t].user == user && !resets[t].used
  }

  /** A usable account: known, and not suspended. */
  predicate Standing(a: Accounts, user: Id) {
    user in a.status && !a.status[user].Suspended?
  }

  predicate Usable(a: Accounts, t: Token, now: int) {
    t in a.resets && !a.resets[t].used && now < a.resets[t].expires && Standing(a, a.resets[t].user)
  }

  /** Which calls can come now: the first of a request if its checks pass, a later one if it is next. A
      refresh is reissued to an account in good standing only; an Admin may suspend one and lift it. */
  predicate Can(a: Accounts, x: Action) {
    match x
    case Supersede(call, user) => call !in a.open && Standing(a, user)
    case Insert(call, t, _) => call in a.open && a.open[call].Resetting? && t !in a.resets
    case Find(call, t, next, now) => call !in a.open && next != "" && Usable(a, t, now)
    case Commit(call) => call in a.open && a.open[call].Confirming? && a.open[call].t in a.resets
    case Check(call, user, current, next) =>
      call !in a.open && user in a.secret && a.secret[user] == current && current != next
    case SetPassword(call) => call in a.open && a.open[call].Changing?
    case RevokeAll(call) => call in a.open && a.open[call].Revoking?
    case Authenticate(call, user, password) =>
      call !in a.open && user in a.status && a.status[user].Active? && user in a.secret && a.secret[user] == password
    case SaveSession(call, t) => call in a.open && a.open[call].SigningIn? && t !in a.server.rows
    case SignOutOf(_, _) => true
    case SetStatus(user, _) => user in a.status
    case Serving(c) =>
      && !c.Issue? && !c.Revoke? && CanServe(a.server, c)
      && (c.Reissue? && c.allowed ==> Standing(a, a.server.rows[a.server.jobs[c.call].token].user))
  }

  function SessionsRevoked(s: Server, user: Id): Server {
    s.(rows := RevokedRows(s.rows, SessionsOf(s.rows, user)))
  }

  function Superseded(resets: map<Token, Reset>, user: Id): map<Token, Reset> {
    map t | t in resets :: if resets[t].user == user then resets[t].(used := true) else resets[t]
  }

  function Committed(a: Accounts, call: Id): Accounts
    requires Can(a, Commit(call))
  {
    var t := a.open[call].t;
    var user := a.resets[t].user;
    a.(secret := a.secret[user := a.open[call].next], resets := a.resets[t := a.resets[t].(used := true)],
       marked := a.marked + multiset{t}, server := SessionsRevoked(a.server, user), open := a.open - {call})
  }

  function Act(a: Accounts, x: Action): Accounts
    requires Can(a, x)
  {
    match x
    case Supersede(call, user) =>
      a.(resets := Superseded(a.resets, user), marked := a.marked + multiset(UnusedOf(a.resets, user)),
         open := a.open[call := Resetting(user)])
    case Insert(call, t, now) =>
      a.(resets := a.resets[t := Reset(a.open[call].user, false, now + RESET_TTL)], open := a.open - {call})
    case Find(call, t, next, _) => a.(open := a.open[call := Confirming(t, next)])
    case Commit(call) => Committed(a, call)
    case Check(call, user, _, next) => a.(open := a.open[call := Changing(user, next)])
    case SetPassword(call) =>
      a.(secret := a.secret[a.open[call].user := a.open[call].next],
        open := a.open[call := Revoking(a.open[call].user)])
    case RevokeAll(call) => a.(server := SessionsRevoked(a.server, a.open[call].user), open := a.open - {call})
    case Authenticate(call, user, _) => a.(open := a.open[call := SigningIn(user)])
    case SaveSession(call, t) =>
      a.(server := Serve(a.server, Issue(t, a.open[call].user)), open := a.open - {call})
    case SignOutOf(user, session) =>
      var ended := SessionsOf(a.server.rows, user);
      a.(server := Serve(a.server, Revoke(if session.Some? then ended * {session.value} else ended)))
    case SetStatus(user, status) => a.(status := a.status[user := status])
    case Serving(c) => a.(server := Serve(a.server, c))
  }

  /** A call that cannot come now does nothing. */
  function Perform(a: Accounts, x: Action): Accounts {
    if Can(a, x) then Act(a, x) else a
  }

  function PerformAll(a: Accounts, xs: seq<Action>): Accounts
    decreases |xs|
  {
    if xs == [] then a else PerformAll(Perform(a, xs[0]), xs[1..])
  }

  // ---- one usable reset token, marked used once ----

  /** A user never has two reset tokens that could both be used. */
  predicate OneAtATime(a: Accounts) {
    forall t, u :: t in a.resets && u in a.resets && a.resets[t].user == a.resets[u].user ==>
      t == u || a.resets[t].used || a.resets[u].used
  }

  /** A reset token is used up once: superseded or confirmed, never both, never twice. */
  predicate UsedOnce(a: Accounts) {
    forall t :: t in a.marked ==> a.marked[t] <= 1
  }

  /** Tokens are used if they were marked, and only tokens there are being confirmed. */
  predicate Tells(a: Accounts) {
    && (forall t :: t in a.marked ==> t in a.resets && a.resets[t].used)
    && (forall t :: t in a.resets && a.resets[t].used ==> t in a.marked)
    && (forall c :: c in a.open && a.open[c].Confirming? ==> a.open[c].t in a.resets)
  }

  predicate InOrder(a: Accounts) {
    OneAtATime(a) && UsedOnce(a)
  }

  /** No unused token is left when a new one is inserted; the token is still unused at the commit. */
  predicate Fresh(a: Accounts, x: Action) {
    match x
    case Insert(call, t, _) => Can(a, x) ==> UnusedOf(a.resets, a.open[call].user) == {}
    case Commit(call) => Can(a, x) ==> !a.resets[a.open[call].t].used
    case _ => true
  }

  lemma SupersedeKeepsTells(a: Accounts, x: Action)
    requires Tells(a) && x.Supersede? && Can(a, x)
    ensures Tells(Act(a, x))
  {
    var after := Act(a, x);
    forall t | t in after.marked ensures t in after.resets && after.resets[t].used {
      assert t in a.marked || t in UnusedOf(a.resets, x.user);
    }
    forall t | t in after.resets && after.resets[t].used ensures t in after.marked {
      assert !a.resets[t].used ==> t in UnusedOf(a.resets, x.user);
    }
  }

  lemma ResetKeepsTells(a: Accounts, x: Action)
    requires Tells(a) && (x.Insert? || x.Find? || x.Commit?) && Can(a, x)
    ensures Tells(Act(a, x))
  {
  }

  lemma CallKeepsTells(a: Accounts, x: Action)
    requires Tells(a)
    ensures Tells(Perform(a, x))
  {
    if Can(a, x) {
      if x.Supersede? {
        SupersedeKeepsTells(a, x);
      } else if x.Insert? || x.Find? || x.Commit? {
        ResetKeepsTells(a, x);
      } else {
        var after := Act(a, x);
        assert after.resets == a.resets && after.marked == a.marked;
        assert forall c :: c in after.open && after.open[c].Confirming? ==> c in a.open && a.open[c] == after.open[c];
      }
    }
  }

  lemma InsertAndOrder(a: Accounts, x: Action)
    requires InOrder(a) && Tells(a) && x.Insert? && Can(a, x)
    ensures InOrder(Act(a, x)) <==> Fresh(a, x)
  {
    var after, user := Act(a, x), a.open[x.call].user;
    if u :| u in UnusedOf(a.resets, user) {
      assert after.resets[u] == a.resets[u] && !after.resets[x.t].used;
      assert !OneAtATime(after);
    } else {
      assert forall u :: u in a.resets && a.resets[u].user == user ==>
        u in UnusedOf(a.resets, user) || a.resets[u].used;
    }
  }

  lemma CommitAndOrder(a: Accounts, x: Action)
    requires InOrder(a) && Tells(a) && x.Commit? && Can(a, x)
    ensures InOrder(Act(a, x)) <==> Fresh(a, x)
  {
    var after, t := Act(a, x), a.open[x.call].t;
    assert after.marked[t] == a.marked[t] + 1;
    assert forall u :: u != t ==> after.marked[u] == a.marked[u];
  }

  lemma SupersedeAndOrder(a: Accounts, x: Action)
    requires InOrder(a) && Tells(a) && x.Supersede? && Can(a, x)
    ensures InOrder(Act(a, x))
  {
    var after := Act(a, x);
    forall t | t in after.marked ensures after.marked[t] <= 1 {
      if t in UnusedOf(a.resets, x.user) { assert t !in a.marked; }
    }
  }

  /** Every call keeps reset tokens in order, an insertion and a commit exactly when they are fresh. */
  lemma CallAndOrder(a: Accounts, x: Action)
    requires InOrder(a) && Tells(a)
    ensures InOrder(Perform(a, x)) <==> Fresh(a, x)
  {
    if Can(a, x) {
      match x
      case Insert(_, _, _) => InsertAndOrder(a, x);
      case Commit(_) => CommitAndOrder(a, x);
      case Supersede(_, _) => SupersedeAndOrder(a, x);
      case _ => assert Act(a, x).resets == a.resets && Act(a, x).marked == a.marked;
    }
  }

  predicate InOrderThroughout(a: Accounts, xs: seq<Action>)
    decreases |xs|
  {
    InOrder(a) && (xs == [] || InOrderThroughout(Perform(a, xs[0]), xs[1..]))
  }

  predicate AllFresh(a: Accounts, xs: seq<Action>)
    decreases |xs|
  {
    xs == [] || (Fresh(a, xs[0]) && AllFresh(Perform(a, xs[0]), xs[1..]))
  }

  /** In every interleaving a user has at most one usable reset token and each is used up once,
      throughout, exactly when every insertion and every commit is fresh. */
  lemma {:induction false} FreshIsExact(a: Accounts, xs: seq<Action>)
    requires InOrder(a) && Tells(a)
    ensures InOrderThroughout(a, xs) <==> AllFresh(a, xs)
    decreases |xs|
  {
    if xs != [] {
      CallAndOrder(a, xs[0]);
      CallKeepsTells(a, xs[0]);
      if Fresh(a, xs[0]) {
        FreshIsExact(Perform(a, xs[0]), xs[1..]);
      }
    }
  }

  // ---- what a new password ends ----

  /** No session of the user can be refreshed. */
  predicate Over(a: Accounts, user: Id) {
    forall t :: t in a.server.rows && a.server.rows[t].user == user ==> a.server.rows[t].revoked
  }

  /** No refresh of the user's is past its lookup, and no sign-in past its check. */
  predicate Idle(a: Accounts, user: Id) {
    && (forall c :: c in a.server.jobs && (a.server.jobs[c].phase.Found? || a.server.jobs[c].phase.Spent?) ==>
          !Holds(a.server, a.server.jobs[c].token, user))
    && (forall c :: c in a.open && a.open[c].SigningIn? ==> a.open[c].user != user)
  }

  predicate Holds(s: Server, t: Token, user: Id) {
    t in s.rows && s.rows[t].user == user
  }

  predicate NoSignIn(xs: seq<Action>, user: Id) {
    forall k :: 0 <= k < |xs| && xs[k].Authenticate? ==> xs[k].user != user
  }

  lemma LookupStaysOver(a: Accounts, x: Action, user: Id)
    requires Over(a, user) && Idle(a, user) && x.Serving? && x.c.Lookup? && Can(a, x)
    ensures Over(Act(a, x), user) && Idle(Act(a, x), user)
  {
  }

  lemma RotationStaysOver(a: Accounts, x: Action, user: Id)
    requires Over(a, user) && Idle(a, user) && x.Serving? && (x.c.Spend? || x.c.Reissue?) && Can(a, x)
    ensures Over(Act(a, x), user) && Idle(Act(a, x), user)
  {
    assert !Holds(a.server, a.server.jobs[x.c.call].token, user);
  }

  lemma ServingStaysOver(a: Accounts, x: Action, user: Id)
    requires Over(a, user) && Idle(a, user) && x.Serving? && Can(a, x)
    ensures Over(Act(a, x), user) && Idle(Act(a, x), user)
  {
    match x.c
    case Arrive(_, _) =>
    case Lookup(_, _) => LookupStaysOver(a, x, user);
    case Spend(_) => RotationStaysOver(a, x, user);
    case Reissue(_, _, _) => RotationStaysOver(a, x, user);
  }

  lemma CallStaysOver(a: Accounts, x: Action, user: Id)
    requires Over(a, user) && Idle(a, user) && (x.Authenticate? ==> x.user != user)
    ensures Over(Perform(a, x), user) && Idle(Perform(a, x), user)
  {
    if Can(a, x) {
      match x
      case Serving(_) => ServingStaysOver(a, x, user);
      case Commit(_) =>
      case RevokeAll(_) =>
      case SignOutOf(_, _) =>
      case SaveSession(_, _) =>
      case _ => assert Act(a, x).server == a.server;
    }
  }

  lemma {:induction false} StaysOver(a: Accounts, xs: seq<Action>, user: Id)
    requires Over(a, user) && Idle(a, user) && NoSignIn(xs, user)
    ensures Over(PerformAll(a, xs), user)
    decreases |xs|
  {
    if xs != [] {
      CallStaysOver(a, xs[0], user);
      StaysOver(Perform(a, xs[0]), xs[1..], user);
    }
  }

  lemma One(a: Accounts, x: Action)
    ensures PerformAll(a, [x]) == Perform(a, x)
  {
    assert [x][1..] == [];
  }

  lemma Two(a: Accounts, x: Action, y: Action)
    ensures PerformAll(a, [x, y]) == Perform(Perform(a, x), y)
  {
    assert [x, y][1..] == [y];
    One(Perform(a, x), y);
  }

  /** What is under way ends in a live session, with no sign-in in between. */
  lemma NotIdleRevives(a: Accounts, user: Id) returns (xs: seq<Action>)
    requires !Idle(a, user) && user in a.status
    ensures NoSignIn(xs, user) && !Over(PerformAll(a, xs), user)
  {
    SomeId(a.server.rows.Keys);
    var t :| t !in a.server.rows;
    if c :| c in a.open && a.open[c].SigningIn? && a.open[c].user == user {
      xs := [SaveSession(c, t)];
      One(a, xs[0]);
      assert !PerformAll(a, xs).server.rows[t].revoked;
    } else {
      var c :| c in a.server.jobs && (a.server.jobs[c].phase.Found? || a.server.jobs[c].phase.Spent?)
        && Holds(a.server, a.server.jobs[c].token, user);
      xs := RefreshRevives(a, user, c, t);
    }
  }

  lemma First(a: Accounts, x: Action, rest: seq<Action>)
    ensures PerformAll(a, [x] + rest) == PerformAll(Perform(a, x), rest)
  {
    assert ([x] + rest)[1..] == rest;
  }

  /** Should the account be suspended, the suspension may be lifted first. */
  lemma RefreshRevives(a: Accounts, user: Id, c: Id, t: Token) returns (xs: seq<Action>)
    requires c in a.server.jobs && (a.server.jobs[c].phase.Found? || a.server.jobs[c].phase.Spent?)
    requires Holds(a.server, a.server.jobs[c].token, user) && t !in a.server.rows && user in a.status
    ensures NoSignIn(xs, user) && !Over(PerformAll(a, xs), user)
  {
    var lift, reissue := SetStatus(user, UserStatus.Active), Serving(Reissue(c, t, true));
    var lifted := Perform(a, lift);
    var rest: seq<Action>;
    if a.server.jobs[c].phase.Spent? {
      rest := [reissue];
      One(lifted, reissue);
      ReissueRevives(lifted, user, c, t);
    } else {
      rest := [Serving(Spend(c)), reissue];
      Two(lifted, rest[0], reissue);
      ReissueRevives(Perform(lifted, rest[0]), user, c, t);
    }
    First(a, lift, rest);
    xs := [lift] + rest;
  }

  lemma ReissueRevives(a: Accounts, user: Id, c: Id, t: Token)
    requires c in a.server.jobs && a.server.jobs[c].phase.Spent?
    requires Holds(a.server, a.server.jobs[c].token, user) && t !in a.server.rows && Standing(a, user)
    ensures !Over(Perform(a, Serving(Reissue(c, t, true))), user)
  {
    var end := Perform(a, Serving(Reissue(c, t, true)));
    assert end.server.rows[t].user == user && !end.server.rows[t].revoked;
  }

  /** The call that revokes every session of a user: after a reset, a change, or a sign-out everywhere. */
  function Revokes(a: Accounts, x: Action): Option<Id> {
    if !Can(a, x) then None else
      match x
      case Commit(call) => Some(a.resets[a.open[call].t].user)
      case RevokeAll(call) => Some(a.open[call].user)
      case SignOutOf(user, None) => Some(user)
      case _ => None
  }

  lemma RevocationIsOver(a: Accounts, x: Action, user: Id)
    requires Revokes(a, x) == Some(user)
    ensures Over(Act(a, x), user) && (Idle(Act(a, x), user) <==> Idle(a, user))
  {
    var after := Act(a, x);
    assert forall t, u :: Holds(after.server, t, u) <==> Holds(a.server, t, u);
    assert after.server.jobs == a.server.jobs;
    assert forall c :: c in a.open && a.open[c].SigningIn? ==> c in after.open && after.open[c] == a.open[c];
    assert forall c :: c in after.open ==> c in a.open && after.open[c] == a.open[c];
  }

  /** In every interleaving, no session of the user outlives the revocation without a new sign-in,
      exactly when at that moment no refresh of theirs is past its lookup and no sign-in past its check. */
  lemma NewPasswordEndsSessions(a: Accounts, x: Action, user: Id)
    requires Revokes(a, x) == Some(user) && user in a.status
    ensures (forall xs :: NoSignIn(xs, user) ==> Over(PerformAll(Act(a, x), xs), user)) <==> Idle(a, user)
  {
    RevocationIsOver(a, x, user);
    if Idle(a, user) {
      forall xs | NoSignIn(xs, user) ensures Over(PerformAll(Act(a, x), xs), user) {
        StaysOver(Act(a, x), xs, user);
      }
    } else {
      var xs := NotIdleRevives(Act(a, x), user);
    }
  }

  // ---- what a new request supersedes ----

  /** A confirmation of this token is past its lookup: its commit will be accepted. */
  predicate BeingConfirmed(a: Accounts, t: Token) {
    exists c :: c in a.open && a.open[c].Confirming? && a.open[c].t == t
  }

  predicate UsedUp(a: Accounts, t: Token) {
    t in a.resets && a.resets[t].used && !BeingConfirmed(a, t)
  }

  lemma CallStaysUsedUp(a: Accounts, x: Action, t: Token)
    requires UsedUp(a, t)
    ensures UsedUp(Perform(a, x), t)
  {
  }

  lemma {:induction false} StaysUsedUp(a: Accounts, xs: seq<Action>, t: Token)
    requires UsedUp(a, t)
    ensures UsedUp(PerformAll(a, xs), t)
    decreases |xs|
  {
    if xs != [] {
      CallStaysUsedUp(a, xs[0], t);
      StaysUsedUp(Perform(a, xs[0]), xs[1..], t);
    }
  }

  /** No confirmation of the token but the one this call commits is past its lookup. */
  predicate NoOtherConfirms(a: Accounts, x: Action, t: Token) {
    forall c :: c in a.open && a.open[c].Confirming? && a.open[c].t == t ==> x == Commit(c)
  }

  lemma ConfirmsAfter(a: Accounts, x: Action, t: Token)
    requires Can(a, x) && (x.Supersede? || x.Commit?)
    ensures BeingConfirmed(Act(a, x), t) <==> !NoOtherConfirms(a, x, t)
  {
    var after := Act(a, x);
    if c :| c in after.open && after.open[c].Confirming? && after.open[c].t == t {
      assert c in a.open && a.open[c] == after.open[c] && x != Commit(c);
    } else {
      forall c | c in a.open && a.open[c].Confirming? && a.open[c].t == t ensures x == Commit(c) {
        assert c !in after.open;
      }
    }
  }

  lemma Nothing(a: Accounts) returns (xs: seq<Action>)
    ensures PerformAll(a, xs) == a
  {
    xs := [];
  }

  /** In every interleaving, a token that a new request superseded or a commit used up is never
      confirmed again, exactly when no other confirmation of it is past its lookup at that moment. */
  lemma UsedUpIsFinal(a: Accounts, x: Action, t: Token)
    requires Can(a, x) && t in a.resets
    requires (x.Supersede? && a.resets[t].user == x.user) || (x.Commit? && a.open[x.call].t == t)
    ensures (forall xs :: !BeingConfirmed(PerformAll(Act(a, x), xs), t)) <==> NoOtherConfirms(a, x, t)
  {
    var after := Act(a, x);
    ConfirmsAfter(a, x, t);
    if BeingConfirmed(after, t) {
      var xs := Nothing(after);
      assert BeingConfirmed(PerformAll(after, xs), t);
    } else {
      forall xs ensures !BeingConfirmed(PerformAll(after, xs), t) {
        StaysUsedUp(after, xs, t);
      }
    }
  }

  // ---- what has been presented ----

  /** The state in which the call of a history came. */
  function Before(a: Accounts, xs: seq<Action>, i: nat): Accounts
    requires i <= |xs|
  {
    PerformAll(a, xs[..i])
  }

  /** The account is known and active and this is its password. */
  predicate Knows(a: Accounts, user: Id, password: string) {
    user in a.secret && a.secret[user] == password
  }

  /** What a request under way has presented when it began. */
  predicate Began(a: Accounts, xs: seq<Action>, c: Id, f: Frame, i: nat)
    requires i < |xs|
  {
    var was, x := Before(a, xs, i), xs[i];
    match f
    case SigningIn(user) =>
      x.Authenticate? && x.call == c && x.user == user && Knows(was, user, x.password)
      && user in was.status && was.status[user].Active?
    case Changing(user, next) =>
      x.Check? && x.call == c && x.user == user && x.next == next && Knows(was, user, x.current) && x.current != next
    case Revoking(user) => x.Check? && x.call == c && x.user == user && Knows(was, user, x.current)
    case Confirming(t, next) =>
      x.Find? && x.call == c && x.t == t && x.next == next && next != ""
      && t in was.resets && !was.resets[t].used && x.now < was.resets[t].expires
    case Resetting(user) =>
      x.Supersede? && x.call == c && x.user == user && user in was.status && !was.status[user].Suspended?
  }

  lemma LastCall(a: Accounts, xs: seq<Action>)
    requires xs != []
    ensures PerformAll(a, xs) == Perform(Before(a, xs, |xs| - 1), xs[|xs| - 1])
  {
    var n := |xs| - 1;
    assert xs == xs[..n] + [xs[n]];
    Join(a, xs[..n], [xs[n]]);
    One(PerformAll(a, xs[..n]), xs[n]);
  }

  /** A frame is new with the call that begins it, or moves on from the password check to the revocation. */
  lemma FrameStep(a: Accounts, x: Action, c: Id)
    requires c in Perform(a, x).open
    ensures (c in a.open && Perform(a, x).open[c] == a.open[c])
         || (Began(a, [x], c, Perform(a, x).open[c], 0) && !Perform(a, x).open[c].Revoking?)
         || (c in a.open && a.open[c].Changing? && Perform(a, x).open[c] == Revoking(a.open[c].user))
  {
    assert [x][..0] == [];
    assert Before(a, [x], 0) == a;
  }

  /** Whatever is under way began with what it needs: the password of an active account, the current
      password and another, an unused and unexpired reset token, an account in good standing. */
  lemma {:induction false} FramesBegan(a: Accounts, xs: seq<Action>, c: Id) returns (i: nat)
    requires a.open == map[] && c in PerformAll(a, xs).open
    ensures i < |xs| && Began(a, xs, c, PerformAll(a, xs).open[c], i)
    decreases |xs|
  {
    var n := |xs| - 1;
    LastCall(a, xs);
    var before, f := Before(a, xs, n), PerformAll(a, xs).open[c];
    FrameStep(before, xs[n], c);
    if c in before.open && (before.open[c] == f || (before.open[c].Changing? && f == Revoking(before.open[c].user))) {
      i := FramesBegan(a, xs[..n], c);
      assert xs[..n][..i] == xs[..i];
    } else {
      i := n;
      assert [xs[n]][..0] == [];
    }
  }

  /** The password of the user was presented at some point. */
  predicate SignedIn(a: Accounts, xs: seq<Action>, user: Id) {
    exists i :: 0 <= i < |xs| && xs[i].Authenticate? && xs[i].user == user
      && Knows(Before(a, xs, i), user, xs[i].password)
  }

  lemma SignedInBefore(a: Accounts, xs: seq<Action>, n: nat, user: Id)
    requires n <= |xs| && SignedIn(a, xs[..n], user)
    ensures SignedIn(a, xs, user)
  {
    var i :| 0 <= i < n && xs[..n][i].Authenticate? && xs[..n][i].user == user
      && Knows(Before(a, xs[..n], i), user, xs[..n][i].password);
    assert xs[..n][..i] == xs[..i] && xs[i] == xs[..n][i];
  }

  /** Every session that no refresh issued belongs to a user whose password was presented. */
  lemma {:induction false} SessionsAreSignedIn(a: Accounts, xs: seq<Action>, t: Token)
    requires a.open == map[] && t !in a.server.rows
    requires t in PerformAll(a, xs).server.rows && PerformAll(a, xs).server.rows[t].issuedFor == None
    ensures SignedIn(a, xs, PerformAll(a, xs).server.rows[t].user)
    decreases |xs|
  {
    var n := |xs| - 1;
    LastCall(a, xs);
    var before, user := Before(a, xs, n), PerformAll(a, xs).server.rows[t].user;
    RowStep(before, xs[n], t);
    if t in before.server.rows {
      SessionsAreSignedIn(a, xs[..n], t);
      SignedInBefore(a, xs, n, user);
    } else {
      var i := FramesBegan(a, xs[..n], xs[n].call);
      assert xs[..n][..i] == xs[..i] && xs[i] == xs[..n][i];
    }
  }

  lemma RowStep(a: Accounts, x: Action, t: Token)
    requires t in Perform(a, x).server.rows && Perform(a, x).server.rows[t].issuedFor == None
    ensures t in a.server.rows ==>
      a.server.rows[t].user == Perform(a, x).server.rows[t].user && a.server.rows[t].issuedFor == None
    ensures t !in a.server.rows ==>
      x.SaveSession? && x.call in a.open && a.open[x.call] == SigningIn(Perform(a, x).server.rows[t].user)
  {
    if x.Serving? && Can(a, x) {
      match x.c
      case Arrive(_, _) =>
      case Lookup(_, _) =>
      case Spend(_) =>
      case Reissue(_, _, _) =>
    }
  }

  /** A password changes only by a change whose request has presented the current one, or by a reset. */
  lemma PasswordsChangeSo(a: Accounts, x: Action, user: Id)
    requires user in a.secret && Perform(a, x).secret[user] != a.secret[user]
    ensures (x.SetPassword? && x.call in a.open && a.open[x.call].Changing? && a.open[x.call].user == user
             && Perform(a, x).secret[user] == a.open[x.call].next)
         || (x.Commit? && x.call in a.open && a.open[x.call].Confirming? && a.open[x.call].t in a.resets
             && a.resets[a.open[x.call].t].user == user && Perform(a, x).secret[user] == a.open[x.call].next)
  {
  }

  /** And these do set it: the new password is the one from then on, and a reset uses its token up. */
  lemma ChangesTakeEffect(a: Accounts, x: Action)
    requires Can(a, x) && (x.SetPassword? || x.Commit?)
    ensures var f := a.open[x.call];
      && (x.SetPassword? ==> Knows(Perform(a, x), f.user, f.next))
      && (x.Commit? ==> Knows(Perform(a, x), a.resets[f.t].user, f.next) && Perform(a, x).resets[f.t].used)
  {
  }

  /** A sign-out ends the user's session it names, or all of the user's, and nothing else. */
  lemma SignOutEnds(a: Accounts, user: Id, session: Option<Token>, t: Token)
    requires t in a.server.rows
    ensures var after := Perform(a, SignOutOf(user, session));
      && t in after.server.rows
      && (after.server.rows[t].revoked
          <==> a.server.rows[t].revoked || (a.server.rows[t].user == user && (session.Some? ==> session == Some(t))))
      && after == a.(server := after.server) && after.server.jobs == a.server.jobs
  {
  }

  /** A reset token is good for an hour, as long as the account is not suspended. */
  lemma ResetsLastAnHour(a: Accounts, call: Id, t: Token, now: int, later: int)
    requires Can(a, Insert(call, t, now)) && a.open[call].user in a.status
    ensures Usable(Perform(a, Insert(call, t, now)), t, later)
       <==> later < now + 3_600_000 && !a.status[a.open[call].user].Suspended?
  {
  }

  // ---- two interleavings ----

  const ONE_USER := Accounts(map[7 := UserStatus.Active], map[7 := "old"], map[], Server(map[], map[]), map[],
    multiset{})

  /** Two reset requests at once leave two usable tokens. */
  lemma TwoUsableTokens()
    ensures InOrder(ONE_USER) && Tells(ONE_USER)
    ensures !OneAtATime(PerformAll(ONE_USER, [Supersede(1, 7), Supersede(2, 7), Insert(1, 0, 0), Insert(2, 1, 0)]))
  {
    var a := Perform(Perform(ONE_USER, Supersede(1, 7)), Supersede(2, 7));
    Two(ONE_USER, Supersede(1, 7), Supersede(2, 7));
    Two(a, Insert(1, 0, 0), Insert(2, 1, 0));
    Join(ONE_USER, [Supersede(1, 7), Supersede(2, 7)], [Insert(1, 0, 0), Insert(2, 1, 0)]);
    var end := Perform(Perform(a, Insert(1, 0, 0)), Insert(2, 1, 0));
    assert !end.resets[0].used && !end.resets[1].used;
  }

  lemma {:induction false} Join(a: Accounts, first: seq<Action>, second: seq<Action>)
    ensures PerformAll(a, first + second) == PerformAll(PerformAll(a, first), second)
    decreases |first|
  {
    if first == [] {
      assert first + second == second;
    } else {
      assert (first + second)[1..] == first[1..] + second;
      Join(Perform(a, first[0]), first[1..], second);
    }
  }

  /** Two confirmations of one token at once set both their passwords, one after the other. */
  lemma ConfirmedTwice(a: Accounts, t: Token, now: int)
    requires Usable(a, t, now) && a.open == map[] && t !in a.marked
    ensures var user := a.resets[t].user;
      var found := PerformAll(a, [Find(1, t, "one", now), Find(2, t, "two", now)]);
      var once := PerformAll(found, [Commit(1)]);
      var twice := PerformAll(found, [Commit(1), Commit(2)]);
      && user in once.secret && once.secret[user] == "one"
      && user in twice.secret && twice.secret[user] == "two" && twice.marked[t] == 2
  {
    var found := Perform(Perform(a, Find(1, t, "one", now)), Find(2, t, "two", now));
    Two(a, Find(1, t, "one", now), Find(2, t, "two", now));
    One(found, Commit(1));
    Two(found, Commit(1), Commit(2));
    var once := Perform(found, Commit(1));
    assert once.marked[t] == 1 && Can(once, Commit(2));
  }
}
