/**
 One iteration of the player's background loop, as a state-machine step.
 Playing a song is a black box whose only observable result is how it
 ended; a skip delivered while a song plays shows up as `Skipped`.
 */
module Worker {

  import opened Options
  import opened Songs
  import opened Queue
  import History

  /**
   How one loop iteration's blocking work ended: normally, interrupted by a
   skip, or with any other exception (whose type name is logged).
   */
  datatype Playback = Completed | Skipped | Failed(cause: string)

  /** The state after one iteration and the log line it wrote, if any. */
  datatype StepResult = StepResult(player: Player, logged: Option<string>)

  /**
   The part of an iteration after the pop, outside the playlist lock: the
   popped song, if any, becomes the playing song; a song that completes or
   is skipped is recorded in the history; any other failure is only logged.
   With nothing popped the playing slot is cleared. The playlist is not
   touched.
   */
  function Finish(p: Player, next: Option<Song>, outcome: Playback): (r: StepResult)
    ensures r.logged.Some? <==> outcome.Failed?
    ensures outcome.Failed? ==> r.logged == Some("Exception in run(): " + outcome.cause)
    ensures next.None? ==> r.player == p.(currentlyPlaying := [])
    ensures next.Some? ==>
      && r.player.playlist == p.playlist
      && r.player.currentlyPlaying == [next.value]
      && r.player.history == (if outcome.Failed? then p.history else History.Record(p.history, next.value))
  {
    match next
    case Some(song) =>
      var playing := p.(currentlyPlaying := [song]);
      (match outcome
       case Failed(cause) => StepResult(playing, Some("Exception in run(): " + cause))
       case _ => StepResult(playing.(history := History.Record(playing.history, song)), None))
    case None =>
      var idle := p.(currentlyPlaying := []);
      (match outcome
       case Failed(cause) => StepResult(idle, Some("Exception in run(): " + cause))
       case _ => StepResult(idle, None))
  }

  /**
   One whole loop iteration: the pop, then `Finish`. The front song, if any,
   becomes the playing song and, unless playback failed, heads the history.
   The playing slot is not cleared after a song ends: the next iteration
   overwrites it.
   */
  function Step(p: Player, outcome: Playback): (r: StepResult)
    ensures r.logged.Some? <==> outcome.Failed?
    ensures outcome.Failed? ==> r.logged == Some("Exception in run(): " + outcome.cause)
    ensures |p.playlist| == 0 ==> r.player == p.(currentlyPlaying := [])
    ensures |p.playlist| > 0 ==>
      && r.player.playlist == p.playlist[1..]
      && r.player.currentlyPlaying == [p.playlist[0]]
      && r.player.history == (if outcome.Failed? then p.history else History.Record(p.history, p.playlist[0]))
  {
    var popped := Pop(p);
    Finish(popped.player, popped.song, outcome)
  }

  /** A skipped song is filed into the history exactly like a completed one. */
  lemma SkipCountsAsPlayed(p: Player)
    ensures Step(p, Skipped) == Step(p, Completed)
  {
  }

  /** Only a failed iteration writes a log line; it never changes the history. */
  lemma FailureOnlyLogs(p: Player, cause: string)
    ensures Step(p, Failed(cause)).player.history == p.history
    ensures Step(p, Failed(cause)).player.playlist == Step(p, Completed).player.playlist
    ensures Step(p, Failed(cause)).player.currentlyPlaying == Step(p, Completed).player.currentlyPlaying
  {
  }

  /** Every step keeps the shape of the state: at most one playing song, a bounded history. */
  lemma StepPreservesWellFormed(p: Player, outcome: Playback)
    requires WellFormed(p)
    ensures WellFormed(Step(p, outcome).player)
  {
  }

  /**
   Popping a song into the playing slot never creates a duplicate video id
   among the pending and playing songs.
   */
  lemma StepPreservesUniqueIds(p: Player, outcome: Playback)
    requires UniqueIds(p)
    ensures UniqueIds(Step(p, outcome).player)
  {
    var q := Step(p, outcome).player;
    if |p.playlist| > 0 {
      var head := p.playlist[0];
      var tail := p.playlist[1..];
      assert p.playlist == [head] + tail;
      DistinctIdsConcat(p.playlist, p.currentlyPlaying);
      DistinctIdsConcat([head], tail);
      assert forall j :: 0 <= j < |tail| ==> tail[j].videoid != head.videoid by {
        forall j | 0 <= j < |tail|
          ensures tail[j].videoid != head.videoid
        {
          assert p.playlist[0] == head && p.playlist[j + 1] == tail[j];
        }
      }
      DistinctIdsConcat(tail, [head]);
      assert q.playlist + q.currentlyPlaying == tail + [head];
    }
  }

  /**
   The song just played stays in the playing slot after the iteration, so
   an ordinary re-submission of the same video is still a duplicate.
   */
  lemma FinishedSongStillBlocksDuplicates(p: Player, outcome: Playback, s: Song)
    requires |p.playlist| > 0 && s.videoid == p.playlist[0].videoid
    requires FirstFailing(Rules, s).None?
    ensures Push(Step(p, outcome).player, s, false) == PushReply("Error: Duplicate", Step(p, outcome).player)
  {
    var q := Step(p, outcome).player;
    assert p.playlist[0] in q.playlist + q.currentlyPlaying;
  }

  /** The steps of a whole run, one playback outcome per iteration. */
  function StepAll(p: Player, outcomes: seq<Playback>): Player
    decreases |outcomes|
  {
    if |outcomes| == 0 then p
    else StepAll(Step(p, outcomes[0]).player, outcomes[1..])
  }

  /**
   The history after a run of iterations: the newest-first list of songs
   that completed or were skipped, on top of the old history, cut to
   `MaxHistSize` entries. Songs whose playback failed are not in it.
   */
  function Finished(p: Player, outcomes: seq<Playback>): seq<Song>
    decreases |outcomes|
  {
    if |outcomes| == 0 then []
    else
      var next := Step(p, outcomes[0]).player;
      (if |p.playlist| > 0 && !outcomes[0].Failed? then [p.playlist[0]] else [])
        + Finished(next, outcomes[1..])
  }

  lemma {:induction false} StepAllHistory(p: Player, outcomes: seq<Playback>)
    requires |p.history| <= History.MaxHistSize
    ensures StepAll(p, outcomes).history == History.RecordAll(p.history, Finished(p, outcomes))
    decreases |outcomes|
  {
    if |outcomes| > 0 {
      var next := Step(p, outcomes[0]).player;
      StepAllHistory(next, outcomes[1..]);
      var first := if |p.playlist| > 0 && !outcomes[0].Failed? then [p.playlist[0]] else [];
      assert next.history == History.RecordAll(p.history, first);
      History.RecordAllAppend(p.history, first, Finished(next, outcomes[1..]));
    }
  }

  /**
   After any run of iterations from a bounded history, the history holds
   the finished songs newest first, then the old history, at most
   `MaxHistSize` entries in all.
   */
  lemma HistoryAfterRun(p: Player, outcomes: seq<Playback>)
    requires |p.history| <= History.MaxHistSize
    ensures StepAll(p, outcomes).history ==
      History.Take(History.Reverse(Finished(p, outcomes)) + p.history, History.MaxHistSize)
  {
    StepAllHistory(p, outcomes);
    History.RecordAllIsNewestFirst(p.history, Finished(p, outcomes));
  }
}
