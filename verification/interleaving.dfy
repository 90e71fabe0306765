/**
 Runs of the player at the granularity of the source's lock. The worker's
 pop holds the playlist lock, but the assignment of the playing song that
 follows it does not. So a worker iteration is two events here, a pop and
 a finish, and a command from a request thread may run between them.
 */
module Interleaving {

  import opened Options
  import opened Songs
  import opened Queue
  import History
  import Worker
  import Commands

  /** Where the worker is: about to pop, or holding what it popped. */
  datatype Phase = BeforePop | AfterPop(next: Option<Song>)

  datatype Machine = Machine(player: Player, phase: Phase)

  /** One atomic event: a whole command, the worker's pop, or the rest of the worker's iteration. */
  datatype Event =
    | Command(request: Commands.Request)
    | WorkerPop
    | WorkerFinish(outcome: Worker.Playback)

  /**
   Applies one event. The worker pops only when it is about to pop, and
   finishes only an iteration it has popped for; otherwise its event is a
   no-op, as the loop is sequential. A command never moves the worker and
   at most appends one song; the pop hands the front song to the worker
   without losing it; the finish puts exactly that song in the playing slot
   and leaves the playlist, including whatever was pushed meanwhile, alone.
   */
  function Apply(m: Machine, e: Event): (r: Machine)
    ensures e.Command? ==>
      && r.phase == m.phase
      && r.player.currentlyPlaying == m.player.currentlyPlaying
      && r.player.history == m.player.history
      && (r.player.playlist == m.player.playlist || exists s :: r.player.playlist == m.player.playlist + [s])
    ensures e.WorkerPop? && m.phase.BeforePop? ==>
      && r.phase.AfterPop?
      && AsSeq(r.phase.next) + r.player.playlist == m.player.playlist
      && r.player.currentlyPlaying == m.player.currentlyPlaying
      && r.player.history == m.player.history
    ensures e.WorkerFinish? && m.phase.AfterPop? ==>
      && r.phase == BeforePop
      && r.player.playlist == m.player.playlist
      && r.player.currentlyPlaying == AsSeq(m.phase.next)
      && r.player.history ==
           (if m.phase.next.Some? && !e.outcome.Failed? then History.Record(m.player.history, m.phase.next.value)
            else m.player.history)
    ensures (e.WorkerPop? && m.phase.AfterPop?) || (e.WorkerFinish? && m.phase.BeforePop?) ==> r == m
  {
    match e
    case Command(q) =>
      Commands.CommandAppendsAtMostOne(m.player, q.input, q.ipaddr, q.isAdmin, Commands.Answer(q), q.skipStatus);
      m.(player := Commands.Handle(m.player, q).player)
    case WorkerPop =>
      if m.phase.BeforePop? then
        var popped := Pop(m.player);
        Machine(popped.player, AfterPop(popped.song))
      else m
    case WorkerFinish(outcome) =>
      if m.phase.AfterPop? then Machine(Worker.Finish(m.player, m.phase.next, outcome).player, BeforePop)
      else m
  }

  function Run(m: Machine, events: seq<Event>): Machine
    decreases |events|
  {
    if |events| == 0 then m else Run(Apply(m, events[0]), events[1..])
  }

  /** Running two stretches of events one after the other is running their concatenation. */
  lemma {:induction false} RunAppend(m: Machine, a: seq<Event>, b: seq<Event>)
    ensures Run(m, a + b) == Run(Run(m, a), b)
    decreases |a|
  {
    if |a| == 0 {
      assert a + b == b;
    } else {
      assert (a + b)[0] == a[0] && (a + b)[1..] == a[1..] + b;
      RunAppend(Apply(m, a[0]), a[1..], b);
    }
  }

  /** A pop directly followed by its finish is one whole worker iteration. */
  lemma UninterruptedIterationIsStep(p: Player, outcome: Worker.Playback)
    ensures Run(Machine(p, BeforePop), [WorkerPop, WorkerFinish(outcome)])
      == Machine(Worker.Step(p, outcome).player, BeforePop)
  {
    var m1 := Apply(Machine(p, BeforePop), WorkerPop);
    assert Run(m1, [WorkerFinish(outcome)]) == Run(Apply(m1, WorkerFinish(outcome)), []);
  }

  /** A run of whole iterations, written at the lock's granularity: each worker step becomes its pop and its finish. */
  function Expand(events: seq<Commands.Event>): (r: seq<Event>)
    ensures |r| >= |events|
    decreases |events|
  {
    if |events| == 0 then []
    else
      var first := match events[0]
        case Command(q) => [Command(q)]
        case Tick(outcome) => [WorkerPop, WorkerFinish(outcome)];
      first + Expand(events[1..])
  }

  /**
   The runs of whole iterations are exactly the runs at the lock's
   granularity in which no command falls between a pop and its finish:
   both reach the same player, with the worker about to pop again.
   */
  lemma {:induction false} WholeIterationsAgree(p: Player, events: seq<Commands.Event>)
    ensures Run(Machine(p, BeforePop), Expand(events)) == Machine(Commands.Run(p, events), BeforePop)
    decreases |events|
  {
    if |events| > 0 {
      var e := events[0];
      var first := if e.Command? then [Command(e.request)] else [WorkerPop, WorkerFinish(e.outcome)];
      assert Expand(events) == first + Expand(events[1..]);
      RunAppend(Machine(p, BeforePop), first, Expand(events[1..]));
      if e.Tick? {
        UninterruptedIterationIsStep(p, e.outcome);
      } else {
        assert Run(Machine(p, BeforePop), first) == Run(Apply(Machine(p, BeforePop), first[0]), []);
      }
      assert Run(Machine(p, BeforePop), first) == Machine(Commands.Apply(p, e), BeforePop);
      WholeIterationsAgree(Commands.Apply(p, e), events[1..]);
    }
  }

  /**
   The duplicate check can be passed by a song whose video is being taken
   off the playlist: an ordinary submission arriving between the worker's
   pop and its assignment of the playing song finds the popped song in
   neither list, is accepted, and afterwards the playlist and the playing
   slot hold the same video. No administrator is involved.
   */
  lemma DuplicateAcceptedBetweenPopAndPlay()
    ensures var meta := Metadata("dQw4w9WgXcQ", "Song", 212, 1000000, 4.8);
      var a := MakeSong("https://youtu.be/dQw4w9WgXcQ", "10.0.0.1", meta);
      var q := Commands.Request("https://www.youtube.com/watch?v=dQw4w9WgXcQ", "10.0.0.2", false, Resolved(meta), 0);
      var start := Machine(Player([a], [], []), BeforePop);
      var popped := Apply(start, WorkerPop);
      && UniqueIds(start.player)
      && Commands.Handle(popped.player, q).message == "Added: Song"
      && !UniqueIds(Run(start, [WorkerPop, Command(q), WorkerFinish(Worker.Completed)]).player)
  {
    var meta := Metadata("dQw4w9WgXcQ", "Song", 212, 1000000, 4.8);
    var a := MakeSong("https://youtu.be/dQw4w9WgXcQ", "10.0.0.1", meta);
    var url := "https://www.youtube.com/watch?v=dQw4w9WgXcQ";
    var q := Commands.Request(url, "10.0.0.2", false, Resolved(meta), 0);
    var b := MakeSong(url, "10.0.0.2", meta);
    var start := Machine(Player([a], [], []), BeforePop);
    var events := [WorkerPop, Command(q), WorkerFinish(Worker.Completed)];
    AdmittedIff(b);
    var m1 := Apply(start, WorkerPop);
    assert m1 == Machine(Player([], [], []), AfterPop(Some(a)));
    assert url != Commands.Password;
    assert Commands.Answer(q)(url) == Resolved(meta);
    var m2 := Apply(m1, events[1]);
    assert m2 == Machine(Player([b], [], []), AfterPop(Some(a)));
    var m3 := Apply(m2, events[2]);
    assert m3.player.playlist + m3.player.currentlyPlaying == [b, a];
    assert Run(start, events) == Run(m1, events[1..]);
    assert Run(m1, events[1..]) == Run(m2, events[2..]) by {
      assert events[1..][0] == events[1] && events[1..][1..] == events[2..];
    }
    assert Run(m2, events[2..]) == m3 by {
      assert events[2..][0] == events[2] && events[2..][1..] == [];
    }
    assert [b, a][0].videoid == [b, a][1].videoid;
  }

  /**
   Splitting the iteration does not affect the shape of the state: at most
   one playing song and at most `MaxHistSize` history entries, whatever
   runs between the pop and the finish.
   */
  lemma {:induction false} RunPreservesWellFormed(m: Machine, events: seq<Event>)
    requires WellFormed(m.player)
    ensures WellFormed(Run(m, events).player)
    decreases |events|
  {
    if |events| > 0 {
      RunPreservesWellFormed(Apply(m, events[0]), events[1..]);
    }
  }
}
