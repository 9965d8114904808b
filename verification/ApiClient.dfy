/** The browser's side of a token refresh, from one await to the next. */
module ApiRequests {
  import opened Domain
  import opened Rotation
  import opened Tokens

  class ApiClient {
    var stored: Option<Token>
    var isRefreshing: bool
    var refreshSubscribers: seq<Id>

    ghost function Snapshot(): Client
      reads this
    {
      Client(stored, isRefreshing, refreshSubscribers)
    }

    /** From a 401 to the next await: start the refresh, or wait for the one under way. */
    method OnUnauthorized(call: Id) returns (reaction: Reaction)
      modifies this
      ensures reaction == React(old(Snapshot()))
      ensures Snapshot() == Tokens.OnUnauthorized(old(Snapshot()), call)
    {
      if stored.None? {
        stored := None;
        return SignIn;
      }
      if isRefreshing {
        refreshSubscribers := refreshSubscribers + [call];
        return Wait;
      }
      isRefreshing := true;
      reaction := AskWith(stored.value);
    }

    /** `onRefreshed`: run every waiting call with the new tokens, in order, and forget them. */
    method OnRefreshed(t: Token) returns (ran: seq<Run>)
      modifies this`refreshSubscribers
      ensures ran == Runs(old(refreshSubscribers), t) && refreshSubscribers == []
    {
      ran := [];
      for i := 0 to |refreshSubscribers|
        invariant ran == Runs(refreshSubscribers[..i], t)
      {
        assert refreshSubscribers[..i + 1] == refreshSubscribers[..i] + [refreshSubscribers[i]];
        ran := ran + [Run(refreshSubscribers[i], t)];
      }
      assert refreshSubscribers[..|refreshSubscribers|] == refreshSubscribers;
      refreshSubscribers := [];
    }

    /** From the refresh's body to the retry: store, end the refresh, run the waiting calls. */
    method OnTokens(t: Token) returns (ran: seq<Run>)
      modifies this
      ensures Snapshot() == Tokens.OnTokens(old(Snapshot()), t) && ran == Runs(old(refreshSubscribers), t)
    {
      stored := Some(t);
      isRefreshing := false;
      ran := OnRefreshed(t);
    }

    /** The `catch`: sign out and end the refresh. */
    method OnFailure()
      modifies this
      ensures Snapshot() == Tokens.OnFailure(old(Snapshot()))
    {
      stored := None;
      isRefreshing := false;
    }
  }
}
