/** The server's account and refresh requests as they run on its tables, from one database call to
    the next. `jobs` and `open` are the frames of the requests that wait for their next call. */
module AuthRequests {
  import opened Domain
  import opened Rotation
  import opened Passwords

  class AuthService {
    var status: map<Id, UserStatus>
    var secret: map<Id, string>
    var resets: map<Token, Reset>
    var sessions: map<Token, Row>
    var jobs: map<Id, Job>
    var open: map<Id, Frame>
    ghost var marked: multiset<Token>

    ghost function Snapshot(): Accounts
      reads this
    {
      Accounts(status, secret, resets, Server(sessions, jobs), open, marked)
    }

    /** `updateMany`: revoke the sessions of a user, or one of them. */
    method RevokeSessions(user: Id, only: Option<Token>)
      modifies this`sessions
      ensures var mine := SessionsOf(old(sessions), user);
        sessions == RevokedRows(old(sessions), if only.Some? then mine * {only.value} else mine)
    {
      sessions := map t | t in sessions ::
        if sessions[t].user == user && (only.None? || only.value == t) && !sessions[t].revoked
        then sessions[t].(revoked := true) else sessions[t];
    }

    // ---- `requestPasswordReset` ----

    /** Up to its first write: mark the user's unused tokens used. */
    method Supersede(call: Id, user: Id) returns (ok: bool)
      requires call !in open
      modifies this
      ensures ok == Can(old(Snapshot()), Action.Supersede(call, user))
      ensures Snapshot() == Perform(old(Snapshot()), Action.Supersede(call, user))
    {
      if user !in status || status[user].Suspended? { return false; }
      marked := marked + multiset(UnusedOf(resets, user));
      resets := map t | t in resets ::
        if resets[t].user == user && !resets[t].used then resets[t].(used := true) else resets[t];
      assert resets == Superseded(old(resets), user);
      open := open[call := Resetting(user)];
      ok := true;
    }

    /** From there to the end: insert the new token, good for an hour. */
    method InsertReset(call: Id, t: Token, now: int)
      requires call in open && open[call].Resetting? && t !in resets
      modifies this
      ensures Snapshot() == Perform(old(Snapshot()), Insert(call, t, now))
    {
      resets := resets[t := Reset(open[call].user, false, now + RESET_TTL)];
      open := open - {call};
    }

    // ---- `confirmPasswordReset` ----

    /** The lookup before the transaction. */
    method FindReset(call: Id, t: Token, next: string, now: int) returns (ok: bool)
      requires call !in open
      modifies this
      ensures ok == Can(old(Snapshot()), Find(call, t, next, now))
      ensures Snapshot() == Perform(old(Snapshot()), Find(call, t, next, now))
    {
      if next == "" || t !in resets || resets[t].used || resets[t].expires <= now { return false; }
      var user := resets[t].user;
      if user !in status || status[user].Suspended? { return false; }
      open := open[call := Confirming(t, next)];
      ok := true;
    }

    /** The transaction: it does not look at the token again. */
    method CommitReset(call: Id)
      requires call in open && open[call].Confirming? && open[call].t in resets
      modifies this
      ensures Snapshot() == Perform(old(Snapshot()), Commit(call))
    {
      var t := open[call].t;
      var user := resets[t].user;
      secret := secret[user := open[call].next];
      resets := resets[t := resets[t].(used := true)];
      marked := marked + multiset{t};
      RevokeSessions(user, None);
      open := open - {call};
    }

    // ---- `changePassword` ----

    method CheckPassword(call: Id, user: Id, current: string, next: string) returns (ok: bool)
      requires call !in open
      modifies this
      ensures ok == Can(old(Snapshot()), Check(call, user, current, next))
      ensures Snapshot() == Perform(old(Snapshot()), Check(call, user, current, next))
    {
      if user !in secret || secret[user] != current || current == next { return false; }
      open := open[call := Changing(user, next)];
      ok := true;
    }

    method WritePassword(call: Id)
      requires call in open && open[call].Changing?
      modifies this
      ensures Snapshot() == Perform(old(Snapshot()), SetPassword(call))
    {
      secret := secret[open[call].user := open[call].next];
      open := open[call := Revoking(open[call].user)];
    }

    method RevokeAfterChange(call: Id)
      requires call in open && open[call].Revoking?
      modifies this
      ensures Snapshot() == Perform(old(Snapshot()), RevokeAll(call))
    {
      RevokeSessions(open[call].user, None);
      open := open - {call};
    }

    // ---- `login` and `logout` ----

    method CheckLogin(call: Id, user: Id, password: string) returns (ok: bool)
      requires call !in open
      modifies this
      ensures ok == Can(old(Snapshot()), Authenticate(call, user, password))
      ensures Snapshot() == Perform(old(Snapshot()), Authenticate(call, user, password))
    {
      if user !in status || !status[user].Active? || user !in secret || secret[user] != password { return false; }
      open := open[call := SigningIn(user)];
      ok := true;
    }

    method SaveSession(call: Id, t: Token)
      requires call in open && open[call].SigningIn? && t !in sessions
      modifies this
      ensures Snapshot() == Perform(old(Snapshot()), Action.SaveSession(call, t))
    {
      sessions := sessions[t := Row(open[call].user, false, None, None)];
      open := open - {call};
    }

    method Logout(user: Id, session: Option<Token>)
      modifies this
      ensures Snapshot() == Perform(old(Snapshot()), SignOutOf(user, session))
    {
      RevokeSessions(user, session);
    }

    // ---- `refreshTokens` ----

    method LookupRefresh(call: Id, live: bool) returns (ok: bool)
      requires call in jobs && jobs[call].phase == Arrived
      modifies this
      ensures ok == Acceptable(old(Snapshot()).server, old(jobs[call].token), live)
      ensures Snapshot() == Perform(old(Snapshot()), Serving(Lookup(call, live)))
    {
      var t := jobs[call].token;
      ok := live && t in sessions && !sessions[t].revoked;
      jobs := jobs[call := Job(t, if ok then Found else Replied(None))];
    }

    method SpendRefresh(call: Id)
      requires call in jobs && jobs[call].phase == Found && jobs[call].token in sessions
      modifies this
      ensures Snapshot() == Perform(old(Snapshot()), Serving(Spend(call)))
    {
      var t := jobs[call].token;
      sessions := sessions[t := sessions[t].(revoked := true, spentBy := Some(call))];
      jobs := jobs[call := Job(t, Spent)];
    }

    /** The account is looked up again; if it is suspended the token is spent for nothing. */
    method ReissueRefresh(call: Id, t: Token) returns (reply: Option<Token>)
      requires call in jobs && jobs[call].phase == Spent && jobs[call].token in sessions && t !in sessions
      modifies this
      ensures var allowed := Standing(old(Snapshot()), old(sessions[jobs[call].token].user));
        && Snapshot() == Perform(old(Snapshot()), Serving(Reissue(call, t, allowed)))
        && reply == if allowed then Some(t) else None
    {
      var spent := jobs[call].token;
      var user := sessions[spent].user;
      reply := None;
      if user in status && !status[user].Suspended? {
        sessions := sessions[t := Row(user, false, None, Some(call))];
        reply := Some(t);
      }
      jobs := jobs[call := Job(spent, Replied(reply))];
    }

    // ---- an Admin's `updateUser` ----

    method ChangeStatus(user: Id, to: UserStatus) returns (ok: bool)
      modifies this
      ensures ok == (user in old(status))
      ensures Snapshot() == Perform(old(Snapshot()), SetStatus(user, to))
    {
      ok := user in status;
      if ok {
        status := status[user := to];
      }
    }
  }
}
