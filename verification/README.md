# music-queue player core, modelled in Dafny

This project models the core of a shared music queue. Visitors submit
YouTube URLs through a web page. Each submission is resolved into a song,
checked against the admission rules and the duplicate check, and appended
to a playlist. A single background worker pops songs one at a time, marks
the song as currently playing, plays it and files it into a bounded,
newest-first history. An administrator can log in by typing the password,
log out, skip the playing song, and submit songs that bypass every check.

The model is functional. The player's state is an immutable record of three
sequences: `playlist`, `currentlyPlaying` (zero or one song, a list as in the
source) and `history`. `push`, `pop`, one worker-loop iteration and the
command router are pure functions over that record.

| file | module | what it models |
|---|---|---|
| options.dfy | `Options` | the optional value returned by `pop` |
| duration.dfy | `Duration` | a song's `length_str` (`m:ss`), with a parser for that format |
| songs.dfy | `Songs` | the song record, its construction from resolved metadata, and the ordered admission rules |
| history.dfy | `History` | the history update: insert at the front, then cut to `MAX_HIST_SIZE` |
| queue.dfy | `Queue` | the player state, `push`, `pop`, FIFO order and the distinct-video-id invariant |
| worker.dfy | `Worker` | one iteration of the `run` loop as a state-machine step |
| commands.dfy | `Commands` | `skip`'s reply and the `parsecommand` router, plus runs of whole commands and whole worker iterations |
| interleaving.dfy | `Interleaving` | runs at the lock's granularity, where a command can fall between the worker's pop and its assignment of the playing song |
| scenarios.dfy | `Scenarios` | concrete runs: acceptance, duplicate, rule rejection, forced push, skip |

The code's behaviour is modelled as written, including these points:

- `currentlyPlaying` is not cleared when a song completes or is skipped. It
  keeps the finished song until the next iteration either overwrites it
  with the next song or, with an empty playlist, clears it. Until then, an
  ordinary re-submission of the song that just finished is a duplicate
  (`Worker.FinishedSongStillBlocksDuplicates`).
- `skip` does not check whether anything is playing. Its reply depends only
  on the status returned when the skip exception is raised in the player
  thread. A skip that reaches an idle loop is acknowledged as `Skipped` and
  records nothing (`Scenarios.SkipWhileIdle`).
- When playback fails with any exception other than a skip, the popped song
  is not in the playlist or the history. It stays in `currentlyPlaying`
  until the next iteration.
- The worker's pop holds the playlist lock, but the assignment of the
  playing song that follows it does not. A submission in between can be
  accepted as a duplicate of the popped song (see "## Findings").
- Only an administrator's `logout` and `skip` are commands. For anyone else
  these words are submitted as URLs. The password is recognised first, even
  for an administrator.

## Model

| member | source | states |
|---|---|---|
| Duration.TwoDigits | main.py:112 | `'%02d'` of a value below 100 is exactly two digits whose value is that number |
| Duration.LengthStr | main.py:112 | `length_str` ends in `:` and two digits that spell the length modulo 60 (Python's floor `%`) |
| Duration.NatToStringRoundTrip | main.py:112 | the decimal rendering of a natural number reads back as that number |
| Duration.IntToStringRoundTrip | main.py:112 | Python's `str` of any integer, including negative minute counts, is a well-formed integer string that reads back as that integer |
| Duration.LengthStrRoundTrip | main.py:112 | parsing `length_str` of any length gives back the same number of seconds, so the `m:ss` rendering loses nothing |
| Duration.LengthStrInjective | main.py:112 | different lengths never render to the same `m:ss` string |
| Songs.MakeSong | main.py:98-112 | a song keeps the submitted url and address, has score 1, carries the resolved id, title, length, views and rating, and its `length_str` is the `m:ss` rendering of its length, which parses back to that length |
| Songs.FirstFailing | main.py:176-180 | it returns no description exactly when every rule admits the song; otherwise it returns the description of a failing rule that every earlier rule admits |
| Songs.FirstFailingIsFirst | main.py:178-180 | if rule k is the first failing rule in list order, its description is the one reported |
| Songs.Rules | main.py:39-43 | the three admission rules in their evaluation order, each with the description shown on rejection: `Duration < 7 min` (length under 420 s), `Score > 4.0` (rating above 4), `Views > 10k` (views above 10000) |
| Songs.AdmittedIff | main.py:39-43 | a song passes the default rules exactly when its length is under 420 s, its rating is above 4 and its views are above 10000 |
| Songs.RejectionReason | main.py:39-43 | a rejected song is told the duration rule first, then the rating rule, then the views rule |
| History.Record | main.py:159-160 | after recording x, x is first, the length is min(old length + 1, 100), and the remaining entries are a prefix of the old history |
| History.RecordAllIsNewestFirst | main.py:159-160 | after any run of recordings from a history of at most 100 entries, the history is the recorded items newest first, then the old history, cut to 100 entries |
| History.RecordAllFromEmpty | main.py:34 | after k recordings into an empty history there are min(k, 100) entries, the latest item first and the rest in reverse recording order |
| History.RecordAllAppend | main.py:159-160 | recording a and then b gives the same history as recording a followed by b |
| Queue.Initial | main.py:120-123 | a new player has an empty playlist, an empty playing slot and an empty history |
| Queue.Push | main.py:174-189 | a forced push appends and replies `Added: <title>`; otherwise the first failing rule gives `Error, must satisfy: <description>`, then a video id already pending or playing gives `Error: Duplicate`, and only a song that clears both is appended; a rejection leaves the state unchanged |
| Queue.IdTakenIff | main.py:183-184 | the source's two list-membership tests hold exactly when some pending or playing song has the same video id |
| Queue.PushAppendsOrKeeps | main.py:187-189 | every push either leaves the state as it was or appends exactly the new song at the end, and the reply starts `Added: ` exactly in the second case |
| Queue.Pop | main.py:191-197 | pop returns nothing exactly when the playlist is empty; the returned song followed by the new playlist is the old playlist; nothing else changes |
| Queue.PushAllAppendsAccepted | main.py:174-189 | a run of pushes appends exactly the accepted songs in submission order and changes nothing else; forced pushes accept every song |
| Queue.PopAllTakesFront | main.py:191-197 | n pops return the first n pending songs in order and leave the remaining suffix |
| Queue.DrainAll | main.py:191-197 | popping once per pending song returns the whole playlist in order and empties it |
| Queue.PushThenPopIsFifo | main.py:187-197 | after any pushes, draining the playlist yields the old songs and then the accepted songs in push order, and leaves it empty |
| Queue.ForcedPushThenPopIsFifo | main.py:187-197 | n forced pushes into an empty playlist followed by n pops return exactly the pushed songs in push order |
| Queue.DistinctIdsConcat | main.py:182-185 | the pending and playing songs have distinct ids exactly when each part has distinct ids and no id is shared between the parts |
| Queue.PushPreservesUniqueIds | main.py:182-188 | an ordinary push keeps the video ids of pending plus playing songs pairwise distinct |
| Queue.ForcedPushMayDuplicate | main.py:176 | a forced push can put the same video into the playlist twice |
| Worker.Finish | main.py:156-169 | after the pop, a popped song becomes the only playing song and, unless playback failed, heads the history; a failure writes `Exception in run(): <cause>`; with nothing popped the playing slot is cleared; the playlist is not touched |
| Worker.Step | main.py:152-169 | one iteration pops the front song and makes it the only playing song; a completed or skipped song heads the history; any other failure leaves the history and writes `Exception in run(): <cause>`; with an empty playlist only the playing slot is cleared |
| Worker.SkipCountsAsPlayed | main.py:159-167 | a skipped song changes the state exactly as a completed one |
| Worker.FailureOnlyLogs | main.py:168-169 | a failed iteration keeps the history and moves the queue and playing slot exactly as a completed one |
| Worker.StepPreservesWellFormed | main.py:157-167 | an iteration keeps at most one playing song and at most 100 history entries |
| Worker.StepPreservesUniqueIds | main.py:155-157 | moving the front song into the playing slot keeps the video ids of pending plus playing songs distinct |
| Worker.FinishedSongStillBlocksDuplicates | main.py:157-160 | after an iteration plays a song, an ordinary push of a rule-passing song with the same video id is rejected as a duplicate, because the playing slot still holds it |
| Worker.StepAllHistory | main.py:153-167 | after a run of iterations the history is the old history with every completed or skipped song recorded in play order |
| Worker.HistoryAfterRun | main.py:153-167 | after a run of iterations the history lists the finished songs newest first, then the old history, at most 100 entries |
| Commands.Skip | main.py:206-215 | the reply is `Skipped` exactly when the interpreter reports one thread reached; otherwise it is `Failed to skip. Check logs.`, with the log line `skip(): invalid thread id` for status 0 and `skip(): PyThreadState_SetAsyncExc failed` for any other status |
| Commands.Submit | main.py:243-249 | an unresolvable URL replies `Error: Failed to parse video URL`, logs the cause and leaves the state; a resolved one replies and changes the state as the push of the built song |
| Commands.ParseCommand | main.py:226-249 | the password logs in; then an administrator's `logout` and `skip` log out and skip; everything else is a submission pushed with force equal to the administrator flag; a session change never touches the player state |
| Commands.AdminWordsAreSubmissionsForOthers | main.py:234-241 | for a non-administrator, `logout` and `skip` are submitted as URLs |
| Commands.PasswordAlwaysLogsIn | main.py:229-232 | the password logs in even for an administrator |
| Commands.CommandAppendsAtMostOne | main.py:226-249 | a command leaves the state as it was or appends exactly one song to the playlist |
| Commands.NonAdminCommandPreservesUniqueIds | main.py:249 | a non-administrator's command never introduces a duplicate video id |
| Commands.RunPreservesWellFormed | main.py:152-197 | any interleaving of whole commands and whole worker iterations keeps at most one playing song and at most 100 history entries; each command carries its own URL resolution and skip status, so the same URL may resolve differently in different requests |
| Commands.RunPreservesUniqueIds | main.py:155-197 | when no administrator submits a song (administrators may still log in, log out and skip), and whatever each request's URL resolves to, any interleaving of whole commands and whole worker iterations keeps pending plus playing video ids pairwise distinct; this is the behaviour with the pop and the playing-song assignment in one critical section |
| Interleaving.Apply | main.py:155-197 | a command keeps the worker's phase, the playing slot and the history, and at most appends one song to the playlist; the pop hands the front song to the worker, which together with the new playlist is exactly the old playlist; the finish leaves the playlist (including songs pushed meanwhile) alone, puts exactly the popped song in the playing slot, records it unless playback failed, and returns to before the pop; out-of-phase worker events change nothing |
| Interleaving.RunAppend | main.py:152-169 | running two stretches of events in turn is running their concatenation |
| Interleaving.WholeIterationsAgree | main.py:152-169 | a run of whole commands and whole iterations (`Commands.Run`) reaches the same player as the lock-granular run in which each iteration's pop is directly followed by its finish, with the worker again before its pop |
| Interleaving.UninterruptedIterationIsStep | main.py:155-169 | a pop immediately followed by its finish is exactly one whole worker iteration |
| Interleaving.DuplicateAcceptedBetweenPopAndPlay | main.py:155-157 | a non-administrator submission arriving between the worker's pop and its assignment of the playing song is accepted although it repeats the popped video, and leaves two songs with the same video id |
| Interleaving.RunPreservesWellFormed | main.py:155-197 | with commands between a pop and its finish, and each command with its own URL resolution, every run still keeps at most one playing song and at most 100 history entries |
| Scenarios.AcceptThenDuplicate | main.py:174-189 | a 300 s song rated 4.5 with 50000 views is added; the same video again is a duplicate |
| Scenarios.TooLongIsRejected | main.py:40 | a 500 s song is rejected with the duration rule and the state is unchanged |
| Scenarios.ForcedSongPlaysAndIsRecorded | main.py:155-160 | an administrator's song that fails every rule is queued, played next, and heads the history on completion |
| Scenarios.SkipWhilePlaying | main.py:164-167 | an administrator's skip whose delivery succeeds replies `Skipped`, and an iteration whose playback of the front song ends by a skip files that song first in the history; the two are separate inputs that a run pairs by choosing both |
| Scenarios.SkipWhileIdle | main.py:161-166 | a skip delivered to an idle loop still replies `Skipped`, and the state is unchanged |

## Left out

- The Flask routes, templates and the login manager are web plumbing. Login and logout appear only as the `SessionChange` a command reports.
- The log file, its lock and its timestamps are I/O. A logged event is the message text in an optional `logged` field.
- Resolving a URL (video-id extraction and the metadata request) is a foreign library call over the network. A single command takes it as the `resolve` parameter, a total function to `Resolution`; in a run, each `Request` carries its own `Resolution`, so no two requests need agree. The source catches only `ValueError` and `IOError`, so other exceptions would escape `parsecommand`. The model treats every resolution failure as caught.
- Playing a URL is a foreign library call. Only its outcome is modelled: `Completed`, `Skipped` or `Failed`.
- The thread-id lookup and the interpreter call that raises the skip exception are OS-thread and ctypes machinery. `skip` receives the call's integer status as an input. The thread is never dead when `skip` asks for its id, because `run` catches every exception an iteration raises (main.py:164-169); it could end only through an exception raised inside one of those handlers: the timing case in the next line, or a failing log write in the catch-all handler (main.py:169, main.py:82-83), for instance on a full disk. After that, `skip` raises `ThreadError` (main.py:135), which `parsecommand` does not catch; `Commands.Skip`, total over the status, does not represent that path.
- Worker.Step: the asynchronous skip exception is modelled only where the worker handles it, during playback or during the idle sleep. An exception landing during `pop` or during the history update is not modelled. Neither is one landing in a later iteration before `nextsong` is reassigned, where the stale song would be recorded again. These depend on thread timing.
- The playlist lock, the daemon thread and the one-second idle sleep are concurrency and timing. Each `push` and `pop` is one atomic step, and interleavings are sequences of atomic steps. `Interleaving` splits a worker iteration at the lock's boundary into the pop and the rest. `Commands.Run` keeps the iteration whole, which is the corrected behaviour of the finding below; `Interleaving.WholeIterationsAgree` shows it is the lock-granular run with nothing between a pop and its finish.
- Commands.RunPreservesUniqueIds: holds only for runs of whole iterations. With a push between the pop at main.py:155 and the assignment at main.py:157, as the source allows, it fails (`Interleaving.DuplicateAcceptedBetweenPopAndPlay`).
- `MAX_PLAYLIST_SIZE` is declared but never enforced, so the model has no capacity check.
- `score` is a constant 1 with no behaviour. It is kept as a field.
- `avg_rating` is a Python float. It is a Dafny `real`, compared with `> 4` as the rule does, with no floating-point rounding.
- The home page's rendering of the playlist, playing song and history is a read-only display. It is not modelled.

## Findings

| source | as written | input that shows it | evidently intended | confidence | as-written member | corrected member |
|---|---|---|---|---|---|---|
| main.py:155-157 | `pop` releases the playlist lock before the worker sets `_currentlyplaying`, so a push in between finds the popped song in neither list | the playlist holds song a; the worker pops a; a non-administrator submits b, with the same video id and passing every rule; b is added; the worker sets the playing song to a, so the playlist [b] and the playing slot [a] share a video id | the duplicate check always sees a popped song, e.g. the pop and the assignment of the playing song in one critical section, so pending plus playing video ids stay distinct | not executed; needs a thread switch in a window of a few bytecodes | Interleaving.DuplicateAcceptedBetweenPopAndPlay | Commands.RunPreservesUniqueIds |
