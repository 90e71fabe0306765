/**
 Concrete runs of the model: the worked examples of the queue's behaviour
 (admission, duplicates, forced submissions, skipping).
 */
module Scenarios {

  import opened Songs
  import opened Queue
  import Worker
  import Commands

  /** A song that passes every rule is added once; the same video again is a duplicate. */
  lemma AcceptThenDuplicate()
    ensures var x := MakeSong("u", "1.2.3.4", Metadata("x", "X", 300, 50000, 4.5));
      && Push(Initial, x, false) == PushReply("Added: X", Initial.(playlist := [x]))
      && Push(Push(Initial, x, false).player, x, false) == PushReply("Error: Duplicate", Initial.(playlist := [x]))
  {
  }

  /** A song of 500 seconds is told the duration rule and the queue stays as it was. */
  lemma TooLongIsRejected(p: Player)
    ensures var y := MakeSong("u", "1.2.3.4", Metadata("y", "Y", 500, 50000, 4.5));
      Push(p, y, false) == PushReply("Error, must satisfy: Duration < 7 min", p)
  {
    RejectionReason(MakeSong("u", "1.2.3.4", Metadata("y", "Y", 500, 50000, 4.5)));
  }

  /**
   An administrator's song that breaks every rule is still queued, becomes
   the playing song on the next iteration and heads the history once it
   completes.
   */
  lemma ForcedSongPlaysAndIsRecorded()
    ensures var z := MakeSong("u", "1.2.3.4", Metadata("z", "Z", 900, 5, 1.0));
      var queued := Push(Initial, z, true).player;
      var after := Worker.Step(queued, Worker.Completed).player;
      && queued.playlist == [z]
      && after.currentlyPlaying == [z]
      && after.playlist == []
      && after.history == [z]
  {
  }

  /**
   An administrator's skip that reaches the player thread is acknowledged,
   and an iteration whose playback of the front song `w` ends by a skip
   files `w` into the history. The model does not tie the two together:
   the delivery status and the playback outcome are separate inputs, and
   a run pairs a delivered skip with a `Skipped` outcome by choosing both.
   */
  lemma SkipWhilePlaying(w: Song, rest: seq<Song>, h: seq<Song>)
    ensures Commands.ParseCommand(Player([w] + rest, [], h), "skip", "", true, _ => Unresolvable(""), 1).message == "Skipped"
    ensures Worker.Step(Player([w] + rest, [], h), Worker.Skipped).player.history[0] == w
  {
  }

  /**
   A skip sent while nothing plays is still acknowledged as "Skipped": the
   exception reaches the idle loop, which has no song to record.
   */
  lemma SkipWhileIdle(h: seq<Song>)
    ensures Commands.ParseCommand(Player([], [], h), "skip", "", true, _ => Unresolvable(""), 1).message == "Skipped"
    ensures Worker.Step(Player([], [], h), Worker.Skipped).player == Player([], [], h)
  {
  }
}
