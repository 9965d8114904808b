/** The server's rotation of refresh tokens, cut at its database calls: a request is looked up, its
    token is revoked, and a new one is issued, with anything else in between. */
module Rotation {
  import opened Domain

  /** A token pair, named by the fresh `jti` of its refresh token. */
  type Token = nat

  /** Where the server is with one refresh request. */
  datatype Phase = Arrived | Found | Spent | Replied(tokens: Option<Token>)
  datatype Job = Job(token: Token, phase: Phase)

  /** A refresh token row: whose it is, whether it is revoked, by which rotation if any, and for
      which call it was issued. */
  datatype Row = Row(user: Id, revoked: bool, spentBy: Option<Id>, issuedFor: Option<Id>)

  datatype Server = Server(rows: map<Token, Row>, jobs: map<Id, Job>)

  datatype Call =
    | Issue(t: Token, user: Id)
    | Arrive(call: Id, t: Token)
    | Lookup(call: Id, live: bool)
    | Spend(call: Id)
    | Reissue(call: Id, t: Token, allowed: bool)
    | Revoke(ts: set<Token>)

  function RevokedRows(rows: map<Token, Row>, ts: set<Token>): map<Token, Row> {
    map t | t in rows :: if t in ts then rows[t].(revoked := true) else rows[t]
  }

  /** Which calls can come now. */
  predicate CanServe(s: Server, c: Call) {
    match c
    case Issue(t, _) => t !in s.rows
    case Arrive(call, _) => call !in s.jobs
    case Lookup(call, _) => call in s.jobs && s.jobs[call].phase == Arrived
    case Spend(call) => call in s.jobs && s.jobs[call].phase == Found && s.jobs[call].token in s.rows
    case Reissue(call, t, _) =>
      call in s.jobs && s.jobs[call].phase == Spent && s.jobs[call].token in s.rows && t !in s.rows
    case Revoke(_) => true
  }

  /** The row is there, unrevoked, and (`live`) unexpired. */
  predicate Acceptable(s: Server, t: Token, live: bool) {
    live && t in s.rows && !s.rows[t].revoked
  }

  function Advance(s: Server, call: Id, phase: Phase): Server
    requires call in s.jobs
  {
    s.(jobs := s.jobs[call := s.jobs[call].(phase := phase)])
  }

  function SpendRow(s: Server, call: Id): Server
    requires call in s.jobs && s.jobs[call].token in s.rows
  {
    var t := s.jobs[call].token;
    Advance(s, call, Spent).(rows := s.rows[t := s.rows[t].(revoked := true, spentBy := Some(call))])
  }

  function IssueNew(s: Server, call: Id, t: Token): Server
    requires call in s.jobs && s.jobs[call].token in s.rows
  {
    var row := Row(s.rows[s.jobs[call].token].user, false, None, Some(call));
    Advance(s, call, Replied(Some(t))).(rows := s.rows[t := row])
  }

  function Serve(s: Server, c: Call): Server
    requires CanServe(s, c)
  {
    match c
    case Issue(t, user) => s.(rows := s.rows[t := Row(user, false, None, None)])
    case Arrive(call, t) => s.(jobs := s.jobs[call := Job(t, Arrived)])
    case Lookup(call, live) =>
      Advance(s, call, if Acceptable(s, s.jobs[call].token, live) then Found else Replied(None))
    case Spend(call) => SpendRow(s, call)
    case Reissue(call, t, allowed) => if allowed then IssueNew(s, call, t) else Advance(s, call, Replied(None))
    case Revoke(ts) => s.(rows := RevokedRows(s.rows, ts))
  }

  /** A call that cannot come now does nothing. */
  function Served(s: Server, c: Call): Server {
    if CanServe(s, c) then Serve(s, c) else s
  }

  function ServedAll(s: Server, calls: seq<Call>): Server
    decreases |calls|
  {
    if calls == [] then s else ServedAll(Served(s, calls[0]), calls[1..])
  }

  // ---- exchanging a token once ----

  /** The request has passed its lookup and has not been refused since. */
  predicate Committed(p: Phase) {
    p.Found? || p.Spent? || (p.Replied? && p.tokens.Some?)
  }

  /** No two requests are exchanging, or have exchanged, the same token. */
  predicate Once(s: Server) {
    forall c, d :: c in s.jobs && d in s.jobs && s.jobs[c].token == s.jobs[d].token ==>
      c == d || !Committed(s.jobs[c].phase) || !Committed(s.jobs[d].phase)
  }

  /** The row of a token that was spent says so. */
  predicate RowsTell(s: Server) {
    forall c :: c in s.jobs && Committed(s.jobs[c].phase) && !s.jobs[c].phase.Found? ==>
      s.jobs[c].token in s.rows && s.rows[s.jobs[c].token].revoked
  }

  /** No other request with this one's token is between its lookup and its revocation. */
  predicate NobodyBetween(s: Server, call: Id)
    requires call in s.jobs
  {
    forall d :: d in s.jobs && s.jobs[d].token == s.jobs[call].token ==> !s.jobs[d].phase.Found?
  }

  predicate LookupIsAlone(s: Server, c: Call) {
    c.Lookup? && CanServe(s, c) && Acceptable(s, s.jobs[c.call].token, c.live) ==> NobodyBetween(s, c.call)
  }

  lemma CallKeepsRows(s: Server, c: Call)
    requires RowsTell(s)
    ensures RowsTell(Served(s, c))
  {
  }

  lemma LookupAndOnce(s: Server, call: Id, live: bool)
    requires Once(s) && RowsTell(s) && CanServe(s, Lookup(call, live))
    ensures Once(Serve(s, Lookup(call, live))) <==> LookupIsAlone(s, Lookup(call, live))
  {
    var after, t := Serve(s, Lookup(call, live)), s.jobs[call].token;
    if Acceptable(s, t, live) && !NobodyBetween(s, call) {
      var d :| d in s.jobs && s.jobs[d].token == t && s.jobs[d].phase.Found?;
      assert after.jobs[d] == s.jobs[d] && after.jobs[call] == Job(t, Found);
    }
  }

  /** Every call keeps tokens exchanged once, a lookup that is accepted exactly when it is alone. */
  lemma CallAndOnce(s: Server, c: Call)
    requires Once(s) && RowsTell(s)
    ensures Once(Served(s, c)) <==> LookupIsAlone(s, c)
  {
    if c.Lookup? && CanServe(s, c) {
      LookupAndOnce(s, c.call, c.live);
    }
  }

  predicate OnceThroughout(s: Server, calls: seq<Call>)
    decreases |calls|
  {
    Once(s) && (calls == [] || OnceThroughout(Served(s, calls[0]), calls[1..]))
  }

  predicate LookupsAreAlone(s: Server, calls: seq<Call>)
    decreases |calls|
  {
    calls == [] || (LookupIsAlone(s, calls[0]) && LookupsAreAlone(Served(s, calls[0]), calls[1..]))
  }

  /** In every interleaving, whoever sends what, tokens are exchanged once throughout exactly when no
      request is accepted between the lookup and the revocation of another with the same token. */
  lemma {:induction false} RotationIsOnceExactly(s: Server, calls: seq<Call>)
    requires Once(s) && RowsTell(s)
    ensures OnceThroughout(s, calls) <==> LookupsAreAlone(s, calls)
    decreases |calls|
  {
    if calls != [] {
      CallAndOnce(s, calls[0]);
      CallKeepsRows(s, calls[0]);
      if LookupIsAlone(s, calls[0]) {
        RotationIsOnceExactly(Served(s, calls[0]), calls[1..]);
      }
    }
  }

  /** There is always an id, or a token, that is not taken. */
  lemma {:induction false} SomeId(ids: set<Id>)
    ensures exists n :: n !in ids && forall m :: m in ids ==> m < n
    decreases ids
  {
    if k :| k in ids {
      SomeId(ids - {k});
      var n :| n !in ids - {k} && forall m :: m in ids - {k} ==> m < n;
      var n' := if k < n then n else k + 1;
      forall m | m in ids ensures m < n' {
        assert m == k || m in ids - {k};
      }
      assert n' !in ids;
    } else {
      assert 0 !in ids;
    }
  }

  predicate Answered(s: Server, call: Id, t: Token) {
    call in s.jobs && s.jobs[call].phase == Replied(Some(t))
  }

  /** And a lookup that is not alone can always end in two answers: both requests get new tokens. */
  lemma NotAloneIsAnsweredTwice(s: Server, c: Id, d: Id, t: Token, u: Token)
    requires c != d && c in s.jobs && d in s.jobs && s.jobs[c] == Job(s.jobs[d].token, Arrived)
    requires s.jobs[d].phase == Found
    requires Acceptable(s, s.jobs[d].token, true) && t !in s.rows && u !in s.rows && t != u
    ensures var end := ServedAll(s, [Lookup(c, true), Spend(c), Spend(d), Reissue(c, t, true), Reissue(d, u, true)]);
      Answered(end, c, t) && Answered(end, d, u)
  {
    var looked := Served(s, Lookup(c, true));
    var spent := Served(Served(looked, Spend(c)), Spend(d));
    assert spent.jobs[c].phase == Spent && spent.jobs[d].phase == Spent && spent.rows.Keys == s.rows.Keys;
    Five(s, Lookup(c, true), Spend(c), Spend(d), Reissue(c, t, true), Reissue(d, u, true));
  }

  lemma First(s: Server, c: Call, rest: seq<Call>)
    ensures ServedAll(s, [c] + rest) == ServedAll(Served(s, c), rest)
  {
    assert ([c] + rest)[1..] == rest;
  }

  lemma Five(s: Server, a: Call, b: Call, c: Call, d: Call, e: Call)
    ensures ServedAll(s, [a, b, c, d, e]) == Served(Served(Served(Served(Served(s, a), b), c), d), e)
  {
    First(s, a, [b, c, d, e]);
    First(Served(s, a), b, [c, d, e]);
    First(Served(Served(s, a), b), c, [d, e]);
    First(Served(Served(Served(s, a), b), c), d, [e]);
    First(Served(Served(Served(Served(s, a), b), c), d), e, []);
    assert [a] + [b, c, d, e] == [a, b, c, d, e] && [b] + [c, d, e] == [b, c, d, e];
    assert [c] + [d, e] == [c, d, e] && [d] + [e] == [d, e] && [e] + [] == [e];
  }
}
