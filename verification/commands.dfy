/**
 The command router: one text command from a web request, turned into a
 reply message. Logging in and out are only acknowledged (the session
 change is reported, not performed); resolving a URL into metadata and
 delivering a skip to the player thread are inputs to the model.
 */
module Commands {

  import opened Options
  import opened Songs
  import opened Queue
  import Worker

  /** The administrator's password; typing it is the login command. */
  const Password: string := "p00password"

  /** The session change a command asks the login layer for. */
  datatype SessionChange = NoChange | LogIn | LogOut

  datatype Reply = Reply(message: string, player: Player, session: SessionChange, logged: Option<string>)

  datatype SkipReply = SkipReply(message: string, logged: Option<string>)

  /**
   The reply to a skip request, given the status the interpreter returned
   when asked to raise the skip exception in the player thread: 1 means one
   thread was reached, 0 an unknown thread, anything else a failure that
   is undone. The request does not look at whether a song is playing.
   */
  function Skip(status: int): (r: SkipReply)
    ensures r.message == "Skipped" <==> status == 1
    ensures r.logged.None? <==> status == 1
    ensures status != 1 ==> r.message == "Failed to skip. Check logs."
    ensures status == 0 ==> r.logged == Some("skip(): invalid thread id")
    ensures status != 0 && status != 1 ==> r.logged == Some("skip(): PyThreadState_SetAsyncExc failed")
  {
    if status == 1 then SkipReply("Skipped", None)
    else if status == 0 then SkipReply("Failed to skip. Check logs.", Some("skip(): invalid thread id"))
    else SkipReply("Failed to skip. Check logs.", Some("skip(): PyThreadState_SetAsyncExc failed"))
  }

  /** The command is neither a login nor an administrator's logout or skip. */
  predicate IsSubmission(input: string, isAdmin: bool) {
    input != Password && !(isAdmin && (input == "logout" || input == "skip"))
  }

  /**
   Submits `input` as a song URL: resolves it, builds the song and pushes it
   with the given `force`. Any resolution error gives one fixed message and
   logs its cause; the state is then untouched.
   */
  function Submit(p: Player, input: string, ipaddr: string, force: bool,
                  resolve: string -> Resolution): (r: Reply)
    ensures r.session == NoChange
    ensures resolve(input).Unresolvable? ==>
      r == Reply("Error: Failed to parse video URL", p, NoChange, Some("parsecommand(): " + resolve(input).cause))
    ensures resolve(input).Resolved? ==>
      && r.logged == None
      && r.message == Push(p, MakeSong(input, ipaddr, resolve(input).meta), force).message
      && r.player == Push(p, MakeSong(input, ipaddr, resolve(input).meta), force).player
  {
    match resolve(input)
    case Unresolvable(cause) =>
      Reply("Error: Failed to parse video URL", p, NoChange, Some("parsecommand(): " + cause))
    case Resolved(meta) =>
      var pushed := Push(p, MakeSong(input, ipaddr, meta), force);
      Reply(pushed.message, pushed.player, NoChange, None)
  }

  /**
   Routes `input`. The password logs in (even for an administrator); then
   "logout" and "skip" are commands for an administrator only; anything else
   is a song URL, pushed with `force` set exactly for an administrator.
   */
  function ParseCommand(p: Player, input: string, ipaddr: string, isAdmin: bool,
                        resolve: string -> Resolution, skipStatus: int): (r: Reply)
    ensures input == Password ==> r == Reply("Logged in", p, LogIn, None)
    ensures input != Password && isAdmin && input == "logout" ==> r == Reply("Logged out", p, LogOut, None)
    ensures input != Password && isAdmin && input == "skip" ==>
      r == Reply(Skip(skipStatus).message, p, NoChange, Skip(skipStatus).logged)
    ensures IsSubmission(input, isAdmin) ==> r == Submit(p, input, ipaddr, isAdmin, resolve)
    ensures r.session != NoChange ==> r.player == p
  {
    if input == Password then
      Reply("Logged in", p, LogIn, None)
    else if isAdmin && input == "logout" then
      Reply("Logged out", p, LogOut, None)
    else if isAdmin && input == "skip" then
      var s := Skip(skipStatus);
      Reply(s.message, p, NoChange, s.logged)
    else
      Submit(p, input, ipaddr, isAdmin, resolve)
  }

  /**
   For anyone who is not an administrator, "logout" and "skip" are just
   strings submitted as URLs; they never log out or skip.
   */
  lemma AdminWordsAreSubmissionsForOthers(p: Player, ipaddr: string, resolve: string -> Resolution, skipStatus: int)
    ensures ParseCommand(p, "logout", ipaddr, false, resolve, skipStatus) == Submit(p, "logout", ipaddr, false, resolve)
    ensures ParseCommand(p, "skip", ipaddr, false, resolve, skipStatus) == Submit(p, "skip", ipaddr, false, resolve)
  {
  }

  /** The password wins over every other reading, for administrators too. */
  lemma PasswordAlwaysLogsIn(p: Player, ipaddr: string, isAdmin: bool, resolve: string -> Resolution, skipStatus: int)
    ensures ParseCommand(p, Password, ipaddr, isAdmin, resolve, skipStatus).message == "Logged in"
    ensures ParseCommand(p, Password, ipaddr, isAdmin, resolve, skipStatus).session == LogIn
  {
  }

  /** A command either changes only the playlist, by appending one song, or changes nothing. */
  lemma CommandAppendsAtMostOne(p: Player, input: string, ipaddr: string, isAdmin: bool,
                                resolve: string -> Resolution, skipStatus: int)
    ensures var r := ParseCommand(p, input, ipaddr, isAdmin, resolve, skipStatus);
      r.player == p || (exists s :: r.player == p.(playlist := p.playlist + [s]))
  {
  }

  /** Commands from non-administrators never introduce a duplicate video id. */
  lemma NonAdminCommandPreservesUniqueIds(p: Player, input: string, ipaddr: string,
                                          resolve: string -> Resolution, skipStatus: int)
    requires UniqueIds(p)
    ensures UniqueIds(ParseCommand(p, input, ipaddr, false, resolve, skipStatus).player)
  {
    if IsSubmission(input, false) && resolve(input).Resolved? {
      PushPreservesUniqueIds(p, MakeSong(input, ipaddr, resolve(input).meta));
    }
  }

  // ---------------------------------------------------------------------------
  // Whole runs: commands from request threads interleaved with worker steps.
  // ---------------------------------------------------------------------------

  /**
   One command as a request thread hands it over: the text, the sender, the
   sender's role, and what the two foreign calls it may make answer this
   time: the URL resolution and the skip status. Each request carries its
   own answers, so the same URL may resolve differently in two requests.
   */
  datatype Request = Request(input: string, ipaddr: string, isAdmin: bool,
                             resolution: Resolution, skipStatus: int)

  /** The resolver seen by one request: whatever URL it asks about, its own answer. */
  function Answer(q: Request): string -> Resolution {
    (s: string) => q.resolution
  }

  function Handle(p: Player, q: Request): Reply {
    ParseCommand(p, q.input, q.ipaddr, q.isAdmin, Answer(q), q.skipStatus)
  }

  /** Something that happens to the player: a command arrives, or the worker loop iterates. */
  datatype Event =
    | Command(request: Request)
    | Tick(outcome: Worker.Playback)

  function Apply(p: Player, e: Event): Player {
    match e
    case Command(q) => Handle(p, q).player
    case Tick(outcome) => Worker.Step(p, outcome).player
  }

  function Run(p: Player, events: seq<Event>): Player
    decreases |events|
  {
    if |events| == 0 then p else Run(Apply(p, events[0]), events[1..])
  }

  /**
   No command of the run is an administrator's submission, the only kind
   pushed with `force`. Administrators may still log in, log out and skip.
   */
  predicate NoForcedSubmissions(events: seq<Event>) {
    forall i :: 0 <= i < |events| ==>
      (events[i].Command? && events[i].request.isAdmin ==> !IsSubmission(events[i].request.input, true))
  }

  /**
   From any well-formed state, any interleaving of commands and worker steps keeps
   at most one playing song and at most `MaxHistSize` history entries.
   */
  lemma {:induction false} RunPreservesWellFormed(p: Player, events: seq<Event>)
    requires WellFormed(p)
    ensures WellFormed(Run(p, events))
    decreases |events|
  {
    if |events| > 0 {
      var e := events[0];
      if e.Tick? {
        Worker.StepPreservesWellFormed(p, e.outcome);
      } else {
        var q := e.request;
        CommandAppendsAtMostOne(p, q.input, q.ipaddr, q.isAdmin, Answer(q), q.skipStatus);
      }
      RunPreservesWellFormed(Apply(p, e), events[1..]);
    }
  }

  /**
   As long as no administrator submits a song (forced pushes are the only
   way around the duplicate check), the pending and playing songs never
   share a video id, whatever the interleaving of commands and worker steps.
   */
  lemma {:induction false} RunPreservesUniqueIds(p: Player, events: seq<Event>)
    requires UniqueIds(p)
    requires NoForcedSubmissions(events)
    ensures UniqueIds(Run(p, events))
    decreases |events|
  {
    if |events| > 0 {
      var e := events[0];
      if e.Tick? {
        Worker.StepPreservesUniqueIds(p, e.outcome);
      } else if !e.request.isAdmin {
        var q := e.request;
        NonAdminCommandPreservesUniqueIds(p, q.input, q.ipaddr, Answer(q), q.skipStatus);
      } else {
        assert Apply(p, e) == p;
      }
      assert NoForcedSubmissions(events[1..]) by {
        forall i | 0 <= i < |events[1..]|
          ensures events[1..][i].Command? && events[1..][i].request.isAdmin ==>
            !IsSubmission(events[1..][i].request.input, true)
        {
          assert events[1..][i] == events[i + 1];
        }
      }
      RunPreservesUniqueIds(Apply(p, e), events[1..]);
    }
  }
}
