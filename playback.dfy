/** The playback cycle of `play_next` (main.py:164-207) and the guards of the
    commands that talk to the voice connection, over an abstract sink.

    The voice client is an external collaborator. It is modelled by what the
    bot asks of it: whether it is connected (the guild's `voice_client` is
    not None), and whether its player is streaming, paused or stopped. As in
    discord.py, `is_playing()` is false while the player is paused. */
module Playback {
  import opened Songs
  import opened MusicQueues
  import opened QueueListing

  datatype Player = Stopped | Streaming | Paused

  datatype Voice = NotConnected | Connected(channel: ChannelId, player: Player)

  /** `voice_client.is_playing()` */
  predicate IsPlaying(v: Voice) {
    v.Connected? && v.player == Streaming
  }

  /** `voice_client.is_paused()` */
  predicate IsPaused(v: Voice) {
    v.Connected? && v.player == Paused
  }

  /** The messages the command handlers send back. */
  datatype Reply =
    | NotInVoice
    | AddedToQueue(title: string, duration: string, position: nat)
    | ErrorOccurred(message: string)
    | NothingPlaying
    | Skipped
    | NotConnectedReply
    | AlreadyPaused
    | PausedReply
    | NotPaused
    | Resumed
    | StoppedReply
    | LoopStatus(enabled: bool)
    | QueueLoopStatus(enabled: bool)
    | VolumeOutOfRange
    | VolumeSet(percent: int)
    | DisconnectedReply
    | QueueEmpty
    | QueueEmbed(nowPlaying: Option<Song>, upNext: Option<UpNext>)

  /** What one run of `play_next`, up to its idle wait, did. */
  datatype Outcome =
    | AlreadyPlaying      // the sink was streaming: nothing done
    | Started(song: Song) // the song was handed to the sink
    | StartFailed(song: Song) // the sink was not connected: `voice_client.play` raised
    | Drained             // nothing to play: the idle wait begins

  datatype Step = Step(state: QueueState, voice: Voice, outcome: Outcome)

  /** `play_next` up to `await asyncio.sleep(60)` (main.py:164-205). */
  function PlayNextStep(s: QueueState, v: Voice): (r: Step)
    ensures IsPlaying(v) ==> r == Step(s, v, AlreadyPlaying)
    ensures !IsPlaying(v) ==> (r.state.isPlaying <==> NextOf(s).1.Some?)
    ensures !IsPlaying(v) ==> r.state.(isPlaying := s.isPlaying) == NextOf(s).0
    ensures r.outcome.Started? ==>
      v.Connected? && r.voice == Connected(v.channel, Streaming) && Some(r.outcome.song) == r.state.current
    ensures !r.outcome.Started? ==> r.voice == v
    ensures r.outcome.Drained? <==> !IsPlaying(v) && NextOf(s).1.None?
    ensures !IsPlaying(v) && NextOf(s).1.Some? ==>
      r.outcome == (if v.Connected? then Started(NextOf(s).1.value) else StartFailed(NextOf(s).1.value))
  {
    if IsPlaying(v) then Step(s, v, AlreadyPlaying)
    else
      var (t, next) := NextOf(s);
      NextBecomesCurrent(s);
      if next.Some? then
        if v.Connected? then Step(t.(isPlaying := true), v.(player := Streaming), Started(next.value))
        else Step(t.(isPlaying := true), v, StartFailed(next.value))
      else
        Step(t.(isPlaying := false), v, Drained)
  }

  /** The check after the idle wait (main.py:206-207): disconnect only when
      neither the sink nor the queue's flag reports playing. It looks at the
      state at the time of the check, whichever drain armed it: nothing
      cancels an earlier wait. */
  function IdleCheck(s: QueueState, v: Voice): (r: (Voice, bool))
    ensures r.1 <==> !IsPlaying(v) && !s.isPlaying
    ensures r.1 ==> r.0 == NotConnected
    ensures !r.1 ==> r.0 == v
  {
    if !IsPlaying(v) && !s.isPlaying then (NotConnected, true) else (v, false)
  }

  /** A stream ends (it finished, failed, or was stopped): the player stops
      and its `after` callback schedules `play_next` again. */
  function StreamEnded(v: Voice): (r: Voice)
    ensures !IsPlaying(r) && !IsPaused(r)
    ensures r.Connected? <==> v.Connected?
    ensures v.Connected? ==> r == Connected(v.channel, Stopped)
  {
    if v.Connected? then v.(player := Stopped) else v
  }

  /** The start guard of `/play` (main.py:158). */
  predicate ShouldStart(s: QueueState, v: Voice) {
    !IsPlaying(v) && !s.isPlaying
  }

  /** `/skip` (main.py:213-218): only a streaming sink is stopped; a paused
      one is refused like an idle one. */
  function Skip(v: Voice): (r: (Voice, Reply))
    ensures r.1 == Skipped <==> IsPlaying(v)
    ensures r.1 != Skipped ==> r == (v, NothingPlaying)
    ensures IsPlaying(v) ==> r.0 == StreamEnded(v)
  {
    if !v.Connected? || !IsPlaying(v) then (v, NothingPlaying)
    else (v.(player := Stopped), Skipped)
  }

  /** `/pause` (main.py:224-233): refused when not connected or already
      paused. Otherwise the reply is a success even when nothing streams, in
      which case `voice_client.pause()` changes nothing. */
  function Pause(v: Voice): (r: (Voice, Reply))
    ensures !v.Connected? ==> r == (v, NotConnectedReply)
    ensures IsPaused(v) ==> r == (v, AlreadyPaused)
    ensures v.Connected? && !IsPaused(v) ==> r.1 == PausedReply
    ensures IsPlaying(v) ==> IsPaused(r.0) && r.0.channel == v.channel
    ensures !IsPlaying(v) ==> r.0 == v
  {
    if !v.Connected? then (v, NotConnectedReply)
    else if IsPaused(v) then (v, AlreadyPaused)
    else if IsPlaying(v) then (v.(player := Paused), PausedReply)
    else (v, PausedReply)
  }

  /** `/resume` (main.py:239-248): only a paused sink resumes. */
  function Resume(v: Voice): (r: (Voice, Reply))
    ensures !v.Connected? ==> r == (v, NotConnectedReply)
    ensures v.Connected? && !IsPaused(v) ==> r == (v, NotPaused)
    ensures IsPaused(v) ==> r.1 == Resumed && IsPlaying(r.0) && r.0.channel == v.channel
  {
    if !v.Connected? then (v, NotConnectedReply)
    else if !IsPaused(v) then (v, NotPaused)
    else (v.(player := Streaming), Resumed)
  }

  /** Pausing then resuming a streaming sink gives it back as it was. */
  lemma PauseResume(v: Voice)
    requires IsPlaying(v)
    ensures Resume(Pause(v).0).0 == v
  {
  }

  // ------------------------------------------------------- scenarios

  /** Two songs added to an idle guild play one after the other; when the
      second ends the queue drains, and the idle check then disconnects. */
  lemma TwoSongsThenIdle(t1: Song, t2: Song, ch: ChannelId)
    ensures var s0 := Added(Added(Initial(), t1), t2);
      var v0 := Connected(ch, Stopped);
      var a := PlayNextStep(s0, v0);
      var b := PlayNextStep(a.state, StreamEnded(a.voice));
      var c := PlayNextStep(b.state, StreamEnded(b.voice));
      && a.outcome == Started(t1) && a.state.pending == [t2]
      && b.outcome == Started(t2) && b.state.pending == []
      && c.outcome == Drained && !c.state.isPlaying
      && IdleCheck(c.state, c.voice) == (NotConnected, true)
  {
  }

  /** Nothing cancels an idle wait. A guild drains (the wait starts), a song
      is added and started, it ends and the guild drains again; when the
      first wait runs out it disconnects, before the second wait is over. */
  lemma EarlierWaitStillDisconnects(s: QueueState, v: Voice, song: Song)
    requires v.Connected? && !IsPlaying(v)
    requires !s.loop && !s.loopQueue && s.pending == []
    ensures var first := PlayNextStep(s, v);
      var started := PlayNextStep(Added(first.state, song), first.voice);
      var second := PlayNextStep(started.state, StreamEnded(started.voice));
      && first.outcome == Drained
      && started.outcome == Started(song)
      && second.outcome == Drained
      && IdleCheck(second.state, second.voice) == (NotConnected, true)
  {
  }

  /** While a song streams or the queue's flag is set, a pending idle wait
      does not disconnect. */
  lemma NoDisconnectWhilePlaying(s: QueueState, v: Voice)
    requires IsPlaying(v) || s.isPlaying
    ensures IdleCheck(s, v) == (v, false)
  {
  }

  /** When the sink was not connected, `play_next` has already taken the
      song off the queue and set `is_playing` before `voice_client.play`
      raises; from then on the `/play` start guard stays false for every
      later `add`, until a `clear`. */
  lemma FailedStartBlocksPlay(s: QueueState, v: Voice, songs: seq<Song>, w: Voice)
    requires PlayNextStep(s, v).outcome.StartFailed?
    ensures var t := PlayNextStep(s, v).state;
      t.isPlaying && !ShouldStart(AddedAll(t, songs), w)
  {
    AddedAllAppends(PlayNextStep(s, v).state, songs);
  }
}
