# duckie_bot music queue, modelled in Dafny

This project models the playback core of a Discord music bot (`main.py`):
the per-guild `MusicQueue` (a FIFO of pending songs, the current song, an
`is_playing` flag and two loop flags), the bot's lazily filled registry of
queues (`get_queue`), the `play_next` step that hands the next song to the
voice connection or starts the idle wait, the guards of the slash commands
(`/play`, `/skip`, `/pause`, `/resume`, `/stop`, `/disconnect`, `/loop`,
`/loopqueue`, `/volume`, `/queue`), and the text of a song's duration and of
the queue listing.

Layout, one module per file:

- `songs.dfy` (`Songs`): the song record, guild and channel ids, `Option`.
- `format.dfy` (`DurationFormat`): `str(n)`, `f"{n:02d}"` and the
  `m:ss` duration text, with a reader that parses them back.
- `queue.dfy` (`MusicQueues`): the queue's abstract state `QueueState`, a
  function per operation (`Added`, `NextOf`, `Cleared`), the lemmas about
  them, and the class `MusicQueue`. The class updates its fields in place and
  is proved against those functions.
- `registry.dfy` (`Registry`): the class `MusicBot` with its
  `music_queues` map and `GetQueue`.
- `listing.dfy` (`QueueListing`): the loop that numbers the first ten pending
  songs.
- `playback.dfy` (`Playback`): the abstract voice connection (not connected,
  or connected with a stopped, streaming or paused player), the `play_next`
  step, the idle check, the voice-only commands, and scenarios.
- `commands.dfy` (`Commands`): the handlers that go through `get_queue`, as
  methods over the registry, each proved against the functions above.

Points where the code, and so the model, behaves differently from what a
user might expect:

- Nothing cancels the 60-second idle wait. After the wait `play_next` only
  re-checks `voice_client.is_playing()` and `queue.is_playing`. So a wait
  armed by an earlier drain disconnects a guild that has since played a song
  and drained again (`EarlierWaitStillDisconnects`).
- `/pause` on a connected but idle voice client replies "Paused playback!"
  and changes nothing; it is not refused (`Playback.Pause`).
- `/skip` on a paused player is refused, because `is_playing()` is false
  while paused (`Playback.Skip`).
- When `get_next` finds nothing it leaves `current` as it was. A finished
  song therefore stays `current`, and a `loop` turned on later replays it in
  place of a newly added song (`StaleCurrentReplays`).
- If the voice client is no longer connected when `play_next` starts a
  song, the song has already been taken off the queue and `is_playing` set
  before `voice_client.play` raises. The `/play` start guard then stays false
  until a `clear` or a later `play_next` that finds nothing
  (`FailedStartBlocksPlay`).
- The registry keeps every guild's queue for the life of the process. The
  handlers `/queue`, `/loop` and `/loopqueue` create a queue for a guild that
  has none.

## Model

| member | source | states |
|---|---|---|
| `DurationFormat.NatText` | main.py:149 | the decimal text of a whole number is non-empty, all digits, with no leading zero except for 0 |
| `DurationFormat.ParseNatText` | main.py:149 | the decimal text of a number reads back as that number |
| `DurationFormat.ZeroPad2` | main.py:149 | `:02d` gives at least two digits, exactly two below 100, and reads back as the number |
| `DurationFormat.DurationTextReadsBack` | main.py:149 | the displayed `m:ss` reads back as minutes and seconds with `m*60 + s == d` and `0 <= s < 60` |
| `DurationFormat.AddedDurationField` | main.py:149 | "Unknown" exactly when the duration is missing or zero, otherwise that duration's own `m:ss` text |
| `DurationFormat.NowPlayingDurationField` | main.py:192-193 | the "Now Playing" duration field is present exactly when the duration is truthy, with the same text as above |
| `MusicQueues.AddedAppends` | main.py:69-70 | `add` puts the song at the tail, keeps the earlier pending songs, and leaves `current` and the flags alone |
| `MusicQueues.AddedAllAppends` | main.py:69-70 | a series of `add`s appends the songs in order |
| `MusicQueues.NextLoopCurrent` | main.py:73-74 | with `loop` on and a current song, `get_next` returns the current song and changes nothing |
| `MusicQueues.NextNoneIff` | main.py:72-81 | `get_next` returns None exactly when nothing is pending and no current song is looped or re-queued; then nothing changes, `current` included |
| `MusicQueues.NextBecomesCurrent` | main.py:78-80 | a returned song becomes `current`; `is_playing` and the loop flags are untouched |
| `MusicQueues.RunFifo` | main.py:78-80 | with both loop flags off, k calls return the first k pending songs in order, each becoming `current`, and leave the rest pending |
| `MusicQueues.AddThenDrainFifo` | main.py:69-81 | after a series of `add`s with loops off, the calls return every song exactly once in FIFO order, then None |
| `MusicQueues.NextRotates` | main.py:75-80 | with `loop` off, `loop_queue` on and a current song, `get_next` returns the head of pending + [current] and rotates it by one, conserving the multiset |
| `MusicQueues.NextLoopQueueAlone` | main.py:75-80 | with `loop` off, `loop_queue` on, a current song and nothing pending, `get_next` returns the current song again |
| `MusicQueues.RunCycles` | main.py:72-81 | with `loop` off, `loop_queue` on and a current song, the i-th of n calls returns element i mod L of the original ring, and the songs are conserved |
| `MusicQueues.ClearedEmpties` | main.py:83-86 | `clear` empties the queue, unsets `current` and `is_playing`, keeps the loop flags, is idempotent, and `get_next` then returns None |
| `MusicQueues.StaleCurrentReplays` | main.py:72-81 | after a drain, turning `loop` on makes `get_next` return the finished song instead of a newly added one |
| `MusicQueues.MusicQueue.constructor` | main.py:62-67 | a new queue is empty, has no current song and all flags off |
| `MusicQueues.MusicQueue.Add` | main.py:69-70 | the object's new state is `Added` of its old state |
| `MusicQueues.MusicQueue.GetNext` | main.py:72-81 | the object's new state and the returned song are `NextOf` of its old state |
| `MusicQueues.MusicQueue.Clear` | main.py:83-86 | the object's new state is `Cleared` of its old state |
| `Registry.MusicBot.constructor` | main.py:95 | the registry starts empty |
| `Registry.MusicBot.GetQueue` | main.py:102-105 | the guild ends up in the map; an existing queue is returned unchanged and the map is untouched; a missing one is created fresh and empty; other entries keep their queues |
| `Registry.GetQueueTwice` | main.py:102-105 | two calls for the same guild return the very same queue object |
| `QueueListing.ListUpNext` | main.py:282-294 | at most ten entries, entry i is the (i+1)-th pending song numbered i+1, and the footer counts exactly the songs left out |
| `QueueListing.EntryStartsWithNumber` | main.py:284-285 | each entry starts with its 1-based number followed by ". " |
| `Playback.PlayNextStep` | main.py:164-205 | no-op when the sink is streaming; otherwise `is_playing` ends true exactly when `get_next` gave a song, which is started on a connected sink (the start fails on a disconnected one) and is `current`; otherwise the idle wait starts |
| `Playback.IdleCheck` | main.py:205-207 | after the wait, disconnect exactly when neither the sink nor `is_playing` reports playing |
| `Playback.StreamEnded` | main.py:174-182 | when a stream ends the player is stopped on the same channel, and a missing connection stays missing |
| `Playback.Skip` | main.py:209-218 | only a streaming sink is stopped; anything else is refused and unchanged |
| `Playback.Pause` | main.py:220-233 | refused when not connected or already paused; a streaming sink pauses; an idle one gets a success reply and no change |
| `Playback.Resume` | main.py:235-248 | refused unless paused; a paused sink streams again |
| `Playback.PauseResume` | main.py:228-248 | pausing then resuming a streaming sink restores it |
| `Playback.TwoSongsThenIdle` | main.py:164-207 | two added songs start in order on successive completions; then the queue drains and the idle check disconnects |
| `Playback.EarlierWaitStillDisconnects` | main.py:202-207 | with both loop flags off, an idle wait armed before a song was added, played and finished, and the queue drained again, still disconnects |
| `Playback.NoDisconnectWhilePlaying` | main.py:206-207 | while the sink streams or `is_playing` is set, the idle check does not disconnect |
| `Playback.FailedStartBlocksPlay` | main.py:158 | after a start on a disconnected client fails, `is_playing` stays set and the `/play` start guard is false for any later adds |
| `Commands.Joined` | main.py:131-135 | `/play` ends up connected to the user's channel; a move keeps the player's state |
| `Commands.PlayNext` | main.py:164-205 | the guild's queue and the sink change as `PlayNextStep` says; other guilds' queues are unchanged; every existing registry entry keeps its queue object |
| `Commands.Play` | main.py:116-162 | no voice channel: refused, nothing changes; failed resolution: error reply, queue unchanged; else the song is added with its position and playback starts exactly when the start guard holds; every existing registry entry keeps its queue object |
| `Commands.Stop` | main.py:250-263 | refused when not connected; otherwise the queue is cleared and the connection closed, and only `g` may be added to the registry; every existing registry entry keeps its queue object |
| `Commands.Disconnect` | main.py:332-344 | refused when not connected; otherwise the queue is cleared and the connection closed, and only `g` may be added to the registry; every existing registry entry keeps its queue object |
| `Commands.Loop` | main.py:298-304 | toggles `loop` on the guild's queue and reports the new value; every existing registry entry keeps its queue object |
| `Commands.LoopQueue` | main.py:306-312 | toggles `loop_queue` on the guild's queue and reports the new value; every existing registry entry keeps its queue object |
| `Commands.Volume` | main.py:314-330 | out of 0..100 or not connected: refused, nothing changes; else the current song takes the level and only `g` may be added to the registry; volumes stay within 0..100; every existing registry entry keeps its queue object |
| `Commands.ShowQueue` | main.py:265-296 | "empty" exactly when there is no current and no pending song; otherwise the current song when streaming and the listing of the pending songs, whose footer number is the count of songs not listed; every existing registry entry keeps its queue object |

## Left out

- Discord itself: the gateway, slash-command registration, `setup_hook`,
  `on_ready`, deferring and sending interaction responses, and embed
  rendering. Replies are values of `Playback.Reply`. The "Now Playing"
  message is the `Started` outcome.
- `YTDLSource.from_url`: metadata extraction and the FFmpeg source. Its
  result, a song or the exception it raised, is the `Resolution` parameter
  of `Commands.Play`.
- The voice connect, move and disconnect calls, and discord.py's player.
  They are the abstract `Voice` value that each handler takes and returns.
- `asyncio`: the hand-off of `play_next` from the audio thread
  (`run_coroutine_threadsafe`) and the 60-second sleep. A stream's end is
  `StreamEnded` followed by a later `PlayNext`. The wait is `IdleCheck`
  applied to the guild's queue state when it runs out. Because each handler
  keeps every registry entry's queue object, that state is the state of the
  object `play_next` fetched. The `Voice` passed to that later `PlayNext` or
  `IdleCheck` is the voice client `play_next` was given, which the `after`
  callback and the idle check capture (main.py:164, 180, 206-207). It is
  not the guild's current connection: after `/stop` or `/disconnect`
  closes it and `/play` connects again, the captured client is
  `NotConnected`, the case `FailedStartBlocksPlay` covers. No clock is
  modelled.
- Interleavings of handlers at their `await` points are not modelled. Each
  handler runs as one atomic step.
- `Commands.Volume`: the level is kept as an integer percent on the song.
  The source stores the float `volume / 100`.
- `DurationFormat.AddedDurationField`: durations are whole seconds. A
  float duration from the resolver would make `:02d` raise, and that is not
  modelled.
- `Commands.Stop`, `Commands.Disconnect`: stopping the player, and
  disconnecting, which stops it first, end the stream. Its `after` callback
  schedules `play_next` again. That later step is not part of these
  methods; callers model it as `StreamEnded` then `PlayNext`.
- The bot startup block (`bot.run`).
