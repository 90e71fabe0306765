/**
 The player's shared state and its two queue operations. `push` and `pop`
 run under one lock in the source; here each is one atomic function.
 */
module Queue {

  import opened Options
  import opened Songs
  import History

  /**
   The player's state: pending songs in playback order, the song being
   played (a list of zero or one song, as in the source) and the history.
   */
  datatype Player = Player(playlist: seq<Song>, currentlyPlaying: seq<Song>, history: seq<Song>)

  /** A freshly constructed player: everything empty. */
  const Initial: Player := Player([], [], [])

  /** The shape every reachable state keeps. */
  predicate WellFormed(p: Player) {
    |p.currentlyPlaying| <= 1 && |p.history| <= History.MaxHistSize
  }

  /** The video ids of `songs`, in order. */
  function Ids(songs: seq<Song>): (r: seq<string>)
    ensures |r| == |songs|
    ensures forall i :: 0 <= i < |songs| ==> r[i] == songs[i].videoid
  {
    if |songs| == 0 then [] else [songs[0].videoid] + Ids(songs[1..])
  }

  /** Some pending or playing song already has video id `id`. */
  predicate IdTaken(p: Player, id: string) {
    exists x :: x in p.playlist + p.currentlyPlaying && x.videoid == id
  }

  /** No two songs among the pending and the playing one share a video id. */
  predicate DistinctIds(songs: seq<Song>) {
    forall i, j :: 0 <= i < j < |songs| ==> songs[i].videoid != songs[j].videoid
  }

  predicate UniqueIds(p: Player) {
    DistinctIds(p.playlist + p.currentlyPlaying)
  }

  datatype PushReply = PushReply(message: string, player: Player)

  /**
   Submits `s`. Unless `force` is set, `s` must pass every admission rule
   (the first failing rule is reported) and must not share its video id with
   a pending or playing song. An accepted song goes to the end of the
   playlist; nothing else changes.
   */
  function Push(p: Player, s: Song, force: bool): (r: PushReply)
    ensures force ==> r == PushReply("Added: " + s.title, p.(playlist := p.playlist + [s]))
    ensures !force && FirstFailing(Rules, s).Some? ==>
      r == PushReply("Error, must satisfy: " + FirstFailing(Rules, s).value, p)
    ensures !force && FirstFailing(Rules, s).None? && IdTaken(p, s.videoid) ==>
      r == PushReply("Error: Duplicate", p)
    ensures !force && FirstFailing(Rules, s).None? && !IdTaken(p, s.videoid) ==>
      r == PushReply("Added: " + s.title, p.(playlist := p.playlist + [s]))
  {
    if !force && FirstFailing(Rules, s).Some? then
      PushReply("Error, must satisfy: " + FirstFailing(Rules, s).value, p)
    else if !force && (s.videoid in Ids(p.playlist) || s.videoid in Ids(p.currentlyPlaying)) then
      IdTakenIff(p, s.videoid);
      PushReply("Error: Duplicate", p)
    else
      IdTakenIff(p, s.videoid);
      PushReply("Added: " + s.title, p.(playlist := p.playlist + [s]))
  }

  /** The list-membership test the source performs is exactly `IdTaken`. */
  lemma IdTakenIff(p: Player, id: string)
    ensures IdTaken(p, id) <==> id in Ids(p.playlist) || id in Ids(p.currentlyPlaying)
  {
  }

  /**
   Whatever the outcome, a push either leaves the state alone or appends
   exactly `s`; the reply starts with "Added: " exactly in the second case.
   */
  lemma PushAppendsOrKeeps(p: Player, s: Song, force: bool)
    ensures Push(p, s, force).player == p || Push(p, s, force).player == p.(playlist := p.playlist + [s])
    ensures Push(p, s, force).player.playlist == p.playlist + [s] <==>
      Push(p, s, force).message == "Added: " + s.title
  {
    var r := Push(p, s, force);
    if r.player.playlist == p.playlist + [s] {
      assert |r.player.playlist| != |p.playlist|;
    }
    if r.message == "Added: " + s.title {
      assert r.message[0] == 'A';
    }
  }

  datatype Popped = Popped(song: Option<Song>, player: Player)

  /** The songs held by an optional song: none or one. */
  function AsSeq(o: Option<Song>): seq<Song> {
    if o.Some? then [o.value] else []
  }

  /**
   Takes the front song off the playlist without waiting; `None` when the
   playlist is empty. Only the playlist changes, and no song is lost.
   */
  function Pop(p: Player): (r: Popped)
    ensures r.song.None? <==> |p.playlist| == 0
    ensures AsSeq(r.song) + r.player.playlist == p.playlist
    ensures r.player.currentlyPlaying == p.currentlyPlaying && r.player.history == p.history
  {
    if |p.playlist| == 0 then Popped(None, p)
    else
      var first := p.playlist[0];
      Popped(Some(first), p.(playlist := p.playlist[1..]))
  }

  datatype PushRun = PushRun(accepted: seq<Song>, player: Player)

  /** Submits `songs` in order; `accepted` lists those that were added. */
  function PushAll(p: Player, songs: seq<Song>, force: bool): PushRun
    decreases |songs|
  {
    if |songs| == 0 then PushRun([], p)
    else
      var before := PushAll(p, songs[..|songs| - 1], force);
      var s := songs[|songs| - 1];
      var r := Push(before.player, s, force);
      if r.message == "Added: " + s.title then PushRun(before.accepted + [s], r.player)
      else PushRun(before.accepted, r.player)
  }

  datatype PopRun = PopRun(popped: seq<Song>, player: Player)

  /** Pops `n` times, collecting the songs obtained in order. */
  function PopAll(p: Player, n: nat): PopRun
    decreases n
  {
    if n == 0 then PopRun([], p)
    else
      var r := Pop(p);
      var rest := PopAll(r.player, n - 1);
      PopRun(AsSeq(r.song) + rest.popped, rest.player)
  }

  /**
   A run of pushes appends exactly the accepted songs, in submission order,
   and touches nothing else; forced pushes accept every song.
   */
  lemma {:induction false} PushAllAppendsAccepted(p: Player, songs: seq<Song>, force: bool)
    ensures PushAll(p, songs, force).player == p.(playlist := p.playlist + PushAll(p, songs, force).accepted)
    ensures force ==> PushAll(p, songs, force).accepted == songs
    decreases |songs|
  {
    if |songs| > 0 {
      var pre := songs[..|songs| - 1];
      var s := songs[|songs| - 1];
      PushAllAppendsAccepted(p, pre, force);
      var before := PushAll(p, pre, force);
      PushAppendsOrKeeps(before.player, s, force);
      if force {
        assert pre + [s] == songs;
      }
    }
  }

  /** `n` pops yield the first `n` pending songs in order and leave the rest. */
  lemma {:induction false} PopAllTakesFront(p: Player, n: nat)
    ensures PopAll(p, n).popped == History.Take(p.playlist, n)
    ensures PopAll(p, n).player == p.(playlist := p.playlist[History.Min(|p.playlist|, n)..])
    decreases n
  {
    if n > 0 {
      var r := Pop(p);
      PopAllTakesFront(r.player, n - 1);
      if |p.playlist| > 0 {
        assert r.player.playlist == p.playlist[1..];
        assert p.playlist[1..][History.Min(|p.playlist| - 1, n - 1)..] == p.playlist[History.Min(|p.playlist|, n)..];
        assert [p.playlist[0]] + History.Take(p.playlist[1..], n - 1) == History.Take(p.playlist, n);
      }
    }
  }

  /**
   First in, first out: after pushing `songs`, popping as many times as there
   are pending songs yields the old playlist followed by the accepted songs,
   in push order, and empties the playlist.
   */
  lemma PushThenPopIsFifo(p: Player, songs: seq<Song>, force: bool)
    ensures PopAll(PushAll(p, songs, force).player, |p.playlist| + |PushAll(p, songs, force).accepted|).popped
      == p.playlist + PushAll(p, songs, force).accepted
    ensures PopAll(PushAll(p, songs, force).player, |p.playlist| + |PushAll(p, songs, force).accepted|).player.playlist
      == []
  {
    PushAllAppendsAccepted(p, songs, force);
    DrainAll(PushAll(p, songs, force).player);
  }

  /** With forced pushes, n pushes into an empty playlist and n pops give the songs back in order. */
  lemma ForcedPushThenPopIsFifo(p: Player, songs: seq<Song>)
    requires p.playlist == []
    ensures PopAll(PushAll(p, songs, true).player, |songs|).popped == songs
  {
    PushAllAppendsAccepted(p, songs, true);
    DrainAll(PushAll(p, songs, true).player);
  }

  /** Popping once per pending song yields the whole playlist and empties it. */
  lemma DrainAll(q: Player)
    ensures PopAll(q, |q.playlist|).popped == q.playlist
    ensures PopAll(q, |q.playlist|).player.playlist == []
  {
    PopAllTakesFront(q, |q.playlist|);
  }

  // ---------------------------------------------------------------------------
  // Distinct video ids across the playlist and the playing song.
  // ---------------------------------------------------------------------------

  lemma DistinctIdsConcat(a: seq<Song>, b: seq<Song>)
    ensures DistinctIds(a + b) <==>
      DistinctIds(a) && DistinctIds(b) &&
      forall i, j :: 0 <= i < |a| && 0 <= j < |b| ==> a[i].videoid != b[j].videoid
  {
    var ab := a + b;
    if DistinctIds(a) && DistinctIds(b) &&
      forall i, j :: 0 <= i < |a| && 0 <= j < |b| ==> a[i].videoid != b[j].videoid
    {
      forall i, j | 0 <= i < j < |ab|
        ensures ab[i].videoid != ab[j].videoid
      {
        if j < |a| {
        } else if i < |a| {
          assert ab[j] == b[j - |a|];
        } else {
          assert ab[i] == b[i - |a|] && ab[j] == b[j - |a|];
        }
      }
    }
    if DistinctIds(ab) {
      forall i, j | 0 <= i < |a| && 0 <= j < |b|
        ensures a[i].videoid != b[j].videoid
      {
        assert ab[i] == a[i] && ab[|a| + j] == b[j];
      }
      forall i, j | 0 <= i < j < |b|
        ensures b[i].videoid != b[j].videoid
      {
        assert ab[|a| + i] == b[i] && ab[|a| + j] == b[j];
      }
      forall i, j | 0 <= i < j < |a|
        ensures a[i].videoid != a[j].videoid
      {
        assert ab[i] == a[i] && ab[j] == a[j];
      }
    }
  }

  /** An ordinary push never introduces a second song with the same video id. */
  lemma PushPreservesUniqueIds(p: Player, s: Song)
    requires UniqueIds(p)
    ensures UniqueIds(Push(p, s, false).player)
  {
    var r := Push(p, s, false);
    if r.player != p {
      assert !IdTaken(p, s.videoid);
      DistinctIdsConcat(p.playlist, p.currentlyPlaying);
      forall i | 0 <= i < |p.playlist|
        ensures p.playlist[i].videoid != s.videoid
      {
        assert p.playlist[i] in p.playlist + p.currentlyPlaying;
      }
      forall j | 0 <= j < |p.currentlyPlaying|
        ensures p.currentlyPlaying[j].videoid != s.videoid
      {
        assert p.currentlyPlaying[j] in p.playlist + p.currentlyPlaying;
      }
      DistinctIdsConcat(p.playlist, [s]);
      DistinctIdsConcat(p.playlist + [s], p.currentlyPlaying);
    }
  }

  /** A forced push can put the same video in the playlist twice. */
  lemma ForcedPushMayDuplicate(s: Song)
    ensures UniqueIds(Player([s], [], []))
    ensures !UniqueIds(Push(Player([s], [], []), s, true).player)
  {
    var after := Push(Player([s], [], []), s, true).player;
    assert after.playlist + after.currentlyPlaying == [s, s];
    assert (after.playlist + after.currentlyPlaying)[0].videoid == (after.playlist + after.currentlyPlaying)[1].videoid;
  }
}
