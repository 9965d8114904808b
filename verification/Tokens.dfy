/** Token refresh across one browser tab and the server: the client's single-flight refresh, cut at
    its await points, in front of the server's rotation, cut at its database calls. */
module Tokens {
  import opened Domain
  import opened Rotation

  /** The tab's stored tokens, `isRefreshing`, and the calls waiting in `refreshSubscribers`. */
  datatype Client = Client(stored: Option<Token>, refreshing: bool, queue: seq<Id>)

  /** What a 401 leads to. */
  datatype Reaction = SignIn | AskWith(token: Token) | Wait

  function React(c: Client): Reaction {
    if c.stored.None? then SignIn else if c.refreshing then Wait else AskWith(c.stored.value)
  }

  function OnUnauthorized(c: Client, call: Id): Client {
    match React(c)
    case SignIn => c.(stored := None)
    case AskWith(_) => c.(refreshing := true)
    case Wait => c.(queue := c.queue + [call])
  }

  /** New tokens arrived: store them, end the refresh, run every waiting call. */
  function OnTokens(c: Client, t: Token): Client {
    Client(Some(t), false, [])
  }

  /** The refresh was refused, or the refresh, its body or the retry failed: sign out. Waiting calls stay. */
  function OnFailure(c: Client): Client {
    c.(stored := None, refreshing := false)
  }

  /** Where a call that refreshes is: awaiting the reply, awaiting its body, awaiting its own retry. */
  datatype Flight = Asking | Reading(token: Token) | Retrying

  /** A waiting call that was run, with the tokens it was handed. */
  datatype Run = Run(call: Id, token: Token)

  datatype World = World(
    client: Client, seen: set<Id>, flights: map<Id, Flight>, server: Server,
    logins: set<Token>, sent: seq<Token>, ran: seq<Run>)

  datatype Step =
    | IssueLogin(t: Token, user: Id)
    | StoreLogin(t: Token)
    | SignOut
    | Reload
    | Got401(call: Id)
    | Serving(c: Call)
    | Answer(call: Id)
    | Read(call: Id)
    | Fail(call: Id)
    | Retried(call: Id)

  function Runs(queue: seq<Id>, t: Token): seq<Run> {
    seq(|queue|, i requires 0 <= i < |queue| => Run(queue[i], t))
  }

  /** Which steps can be taken now. Tokens are issued to logins and refreshes only, and a refresh
      arrives when the tab sends it. */
  predicate Enabled(w: World, step: Step) {
    match step
    case IssueLogin(t, _) => t !in w.server.rows
    case StoreLogin(t) => t in w.logins
    case Got401(call) => call !in w.seen && call !in w.server.jobs
    case Serving(c) => !c.Issue? && !c.Arrive? && CanServe(w.server, c)
    case Answer(call) =>
      call in w.flights && w.flights[call] == Asking && call in w.server.jobs && w.server.jobs[call].phase.Replied?
    case Read(call) => call in w.flights && w.flights[call].Reading?
    case Fail(call) => call in w.flights
    case Retried(call) => call in w.flights && w.flights[call] == Retrying
    case SignOut => true
    case Reload => true
  }

  function Receive401(w: World, call: Id): World
    requires call !in w.server.jobs
  {
    var after := w.(client := OnUnauthorized(w.client, call), seen := w.seen + {call});
    match React(w.client)
    case AskWith(t) =>
      after.(sent := w.sent + [t], flights := w.flights[call := Asking], server := Serve(w.server, Arrive(call, t)))
    case _ => after
  }

  function GiveUp(w: World, call: Id): World {
    w.(client := OnFailure(w.client), flights := w.flights - {call})
  }

  function StoreAndRun(w: World, call: Id, t: Token): World {
    w.(client := OnTokens(w.client, t), flights := w.flights[call := Retrying], ran := w.ran + Runs(w.client.queue, t))
  }

  /** The page is loaded anew: the storage stays, the module's variables and the calls under way do not. */
  function Reloaded(w: World): World {
    w.(client := Client(w.client.stored, false, []), flights := map[], logins := {})
  }

  function Take(w: World, step: Step): World
    requires Enabled(w, step)
  {
    match step
    case IssueLogin(t, user) => w.(server := Serve(w.server, Issue(t, user)), logins := w.logins + {t})
    case StoreLogin(t) => w.(client := w.client.(stored := Some(t)), logins := w.logins - {t})
    case SignOut => w.(client := w.client.(stored := None))
    case Reload => Reloaded(w)
    case Got401(call) => Receive401(w, call)
    case Serving(c) => w.(server := Serve(w.server, c))
    case Answer(call) =>
      var tokens := w.server.jobs[call].phase.tokens;
      if tokens.Some? then w.(flights := w.flights[call := Reading(tokens.value)]) else GiveUp(w, call)
    case Read(call) => StoreAndRun(w, call, w.flights[call].token)
    case Fail(call) => GiveUp(w, call)
    case Retried(call) => w.(flights := w.flights - {call})
  }

  function Next(w: World, step: Step): World {
    if Enabled(w, step) then Take(w, step) else w
  }

  function Interleave(w: World, steps: seq<Step>): World
    decreases |steps|
  {
    if steps == [] then w else Interleave(Next(w, steps[0]), steps[1..])
  }

  const START := World(Client(None, false, []), {}, map[], Server(map[], map[]), {}, [], [])
}
