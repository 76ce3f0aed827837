/** The command handlers of main.py that touch a guild's queue, and the
    `play_next` coroutine, as methods over the bot's registry. Each takes the
    guild's voice connection as it stands and returns it as the handler
    leaves it; each looks the queue up through `get_queue` exactly where the
    handler does, so a handler can create a guild's queue as a side effect. */
module Commands {
  import opened Songs
  import opened DurationFormat
  import opened MusicQueues
  import opened Registry
  import opened QueueListing
  import opened Playback

  /** What `YTDLSource.from_url` produced: a source, or the exception it raised. */
  datatype Resolution = Found(song: Song) | Failed(message: string)

  /** The text of the exception `voice_client.play` raises when the client
      is not connected. */
  const NotConnectedMessage: string := "Not connected to voice."

  /** `/play` joins the user's channel, or moves there (main.py:131-135); a
      move keeps whatever the player is doing. */
  function Joined(v: Voice, ch: ChannelId): (r: Voice)
    ensures r.Connected? && r.channel == ch
    ensures v.Connected? ==> r.player == v.player
    ensures !v.Connected? ==> r.player == Stopped
  {
    match v
    case NotConnected => Connected(ch, Stopped)
    case Connected(c, p) => if c != ch then Connected(ch, p) else v
  }

  /** Songs whose volume is a valid percent. */
  predicate VolumesInRange(s: QueueState) {
    && (forall i :: 0 <= i < |s.pending| ==> 0 <= s.pending[i].volume <= 100)
    && (s.current.Some? ==> 0 <= s.current.value.volume <= 100)
  }

  /** `play_next` (main.py:164-205) up to the idle wait; the check after the
      wait is `IdleCheck` on the state at that later time. `v` is the voice
      client `play_next` was handed; its `after` callback and idle check keep
      that client even if the guild has since reconnected. */
  method PlayNext(bot: MusicBot, g: GuildId, v: Voice) returns (step: Step)
    requires bot.Valid()
    modifies bot, bot.musicQueues.Values
    ensures bot.Valid()
    ensures forall k :: k in old(bot.musicQueues) ==> k in bot.musicQueues && bot.musicQueues[k] == old(bot.musicQueues[k])
    ensures bot.musicQueues.Keys == old(bot.musicQueues.Keys) + {g}
    ensures forall k :: k != g ==> bot.QueueOf(k) == old(bot.QueueOf(k))
    ensures step == PlayNextStep(old(bot.QueueOf(g)), v)
    ensures bot.QueueOf(g) == step.state
  {
    var q := bot.GetQueue(g);
    if IsPlaying(v) {
      return Step(q.State(), v, AlreadyPlaying);
    }
    var next := q.GetNext();
    if next.Some? {
      q.isPlaying := true;
      if v.Connected? {
        step := Step(q.State(), Connected(v.channel, Streaming), Started(next.value));
      } else {
        step := Step(q.State(), v, StartFailed(next.value));
      }
    } else {
      q.isPlaying := false;
      step := Step(q.State(), v, Drained);
    }
  }

  /** `/play` (main.py:116-162). Without a voice channel the user is turned
      away and nothing changes. A failed resolution reports the error and
      leaves the queue as it was. Otherwise the song is added, the reply
      gives its position, and playback starts when neither the sink nor the
      queue's flag says something is playing. */
  method Play(bot: MusicBot, g: GuildId, userChannel: Option<ChannelId>, v: Voice, resolved: Resolution)
    returns (replies: seq<Reply>, v': Voice, started: Option<Outcome>)
    requires bot.Valid()
    modifies bot, bot.musicQueues.Values
    ensures bot.Valid()
    ensures forall k :: k in old(bot.musicQueues) ==> k in bot.musicQueues && bot.musicQueues[k] == old(bot.musicQueues[k])
    ensures forall k :: k != g ==> bot.QueueOf(k) == old(bot.QueueOf(k))
    ensures userChannel.None? ==>
      replies == [NotInVoice] && v' == v && started.None? && bot.musicQueues == old(bot.musicQueues)
      && forall k :: bot.QueueOf(k) == old(bot.QueueOf(k))
    ensures userChannel.Some? ==> bot.musicQueues.Keys == old(bot.musicQueues.Keys) + {g}
    ensures userChannel.Some? && resolved.Failed? ==>
      replies == [ErrorOccurred(resolved.message)] && v' == Joined(v, userChannel.value)
      && started.None? && bot.QueueOf(g) == old(bot.QueueOf(g))
    ensures userChannel.Some? && resolved.Found? ==>
      var v1 := Joined(v, userChannel.value);
      var s1 := Added(old(bot.QueueOf(g)), resolved.song);
      && |replies| >= 1
      && replies[0] == AddedToQueue(resolved.song.title, AddedDurationField(resolved.song.duration), |s1.pending|)
      && (ShouldStart(s1, v1) ==>
            var st := PlayNextStep(s1, v1);
            && started == Some(st.outcome) && v' == st.voice && bot.QueueOf(g) == st.state
            && replies == (if st.outcome.StartFailed? then [replies[0], ErrorOccurred(NotConnectedMessage)] else [replies[0]]))
      && (!ShouldStart(s1, v1) ==>
            started.None? && v' == v1 && bot.QueueOf(g) == s1 && replies == [replies[0]])
  {
    if userChannel.None? {
      return [NotInVoice], v, None;
    }
    var q := bot.GetQueue(g);
    var v1 := Joined(v, userChannel.value);
    match resolved
    case Failed(message) =>
      return [ErrorOccurred(message)], v1, None;
    case Found(song) =>
      q.Add(song);
      replies := [AddedToQueue(song.title, AddedDurationField(song.duration), |q.queue|)];
      if !IsPlaying(v1) && !q.isPlaying {
        var step := PlayNext(bot, g, v1);
        v', started := step.voice, Some(step.outcome);
        if step.outcome.StartFailed? {
          replies := replies + [ErrorOccurred(NotConnectedMessage)];
        }
      } else {
        v', started := v1, None;
      }
  }

  /** `/stop` (main.py:251-263): when connected, the queue is cleared, the
      stream stopped and the connection closed. */
  method Stop(bot: MusicBot, g: GuildId, v: Voice) returns (reply: Reply, v': Voice)
    requires bot.Valid()
    modifies bot, bot.musicQueues.Values
    ensures bot.Valid()
    ensures forall k :: k in old(bot.musicQueues) ==> k in bot.musicQueues && bot.musicQueues[k] == old(bot.musicQueues[k])
    ensures forall k :: k != g ==> bot.QueueOf(k) == old(bot.QueueOf(k))
    ensures !v.Connected? ==>
      reply == NotConnectedReply && v' == v && bot.musicQueues == old(bot.musicQueues)
      && forall k :: bot.QueueOf(k) == old(bot.QueueOf(k))
    ensures v.Connected? ==>
      reply == StoppedReply && v' == NotConnected
      && bot.musicQueues.Keys == old(bot.musicQueues.Keys) + {g} && bot.QueueOf(g) == Cleared(old(bot.QueueOf(g)))
  {
    if !v.Connected? {
      return NotConnectedReply, v;
    }
    var q := bot.GetQueue(g);
    q.Clear();
    return StoppedReply, NotConnected;
  }

  /** `/disconnect` (main.py:333-344): like `/stop`, the queue is cleared
      and the connection closed. */
  method Disconnect(bot: MusicBot, g: GuildId, v: Voice) returns (reply: Reply, v': Voice)
    requires bot.Valid()
    modifies bot, bot.musicQueues.Values
    ensures bot.Valid()
    ensures forall k :: k in old(bot.musicQueues) ==> k in bot.musicQueues && bot.musicQueues[k] == old(bot.musicQueues[k])
    ensures forall k :: k != g ==> bot.QueueOf(k) == old(bot.QueueOf(k))
    ensures !v.Connected? ==>
      reply == NotConnectedReply && v' == v && bot.musicQueues == old(bot.musicQueues)
      && forall k :: bot.QueueOf(k) == old(bot.QueueOf(k))
    ensures v.Connected? ==>
      reply == DisconnectedReply && v' == NotConnected
      && bot.musicQueues.Keys == old(bot.musicQueues.Keys) + {g} && bot.QueueOf(g) == Cleared(old(bot.QueueOf(g)))
  {
    if !v.Connected? {
      return NotConnectedReply, v;
    }
    var q := bot.GetQueue(g);
    q.Clear();
    return DisconnectedReply, NotConnected;
  }

  /** `/loop` (main.py:299-304): toggles repeating the current song. */
  method Loop(bot: MusicBot, g: GuildId) returns (reply: Reply)
    requires bot.Valid()
    modifies bot, bot.musicQueues.Values
    ensures bot.Valid()
    ensures forall k :: k in old(bot.musicQueues) ==> k in bot.musicQueues && bot.musicQueues[k] == old(bot.musicQueues[k])
    ensures bot.musicQueues.Keys == old(bot.musicQueues.Keys) + {g}
    ensures forall k :: k != g ==> bot.QueueOf(k) == old(bot.QueueOf(k))
    ensures bot.QueueOf(g) == old(bot.QueueOf(g)).(loop := !old(bot.QueueOf(g)).loop)
    ensures reply == LoopStatus(bot.QueueOf(g).loop)
  {
    var q := bot.GetQueue(g);
    q.loop := !q.loop;
    reply := LoopStatus(q.loop);
  }

  /** `/loopqueue` (main.py:307-312): toggles re-queueing finished songs. */
  method LoopQueue(bot: MusicBot, g: GuildId) returns (reply: Reply)
    requires bot.Valid()
    modifies bot, bot.musicQueues.Values
    ensures bot.Valid()
    ensures forall k :: k in old(bot.musicQueues) ==> k in bot.musicQueues && bot.musicQueues[k] == old(bot.musicQueues[k])
    ensures bot.musicQueues.Keys == old(bot.musicQueues.Keys) + {g}
    ensures forall k :: k != g ==> bot.QueueOf(k) == old(bot.QueueOf(k))
    ensures bot.QueueOf(g) == old(bot.QueueOf(g)).(loopQueue := !old(bot.QueueOf(g)).loopQueue)
    ensures reply == QueueLoopStatus(bot.QueueOf(g).loopQueue)
  {
    var q := bot.GetQueue(g);
    q.loopQueue := !q.loopQueue;
    reply := QueueLoopStatus(q.loopQueue);
  }

  /** `/volume` (main.py:316-330): a level outside 0..100 is refused before
      anything else; without a connection it is refused too; otherwise the
      current song, if any, takes the new level. Volumes stay valid. */
  method Volume(bot: MusicBot, g: GuildId, v: Voice, volume: int) returns (reply: Reply)
    requires bot.Valid()
    modifies bot, bot.musicQueues.Values
    ensures bot.Valid()
    ensures forall k :: k in old(bot.musicQueues) ==> k in bot.musicQueues && bot.musicQueues[k] == old(bot.musicQueues[k])
    ensures forall k :: k != g ==> bot.QueueOf(k) == old(bot.QueueOf(k))
    ensures !(0 <= volume <= 100) ==>
      reply == VolumeOutOfRange && bot.musicQueues == old(bot.musicQueues)
      && forall k :: bot.QueueOf(k) == old(bot.QueueOf(k))
    ensures 0 <= volume <= 100 && !v.Connected? ==>
      reply == NotConnectedReply && bot.musicQueues == old(bot.musicQueues)
      && forall k :: bot.QueueOf(k) == old(bot.QueueOf(k))
    ensures 0 <= volume <= 100 && v.Connected? ==>
      var s := old(bot.QueueOf(g));
      && reply == VolumeSet(volume) && bot.musicQueues.Keys == old(bot.musicQueues.Keys) + {g}
      && bot.QueueOf(g) == s.(current := if s.current.Some? then Some(s.current.value.(volume := volume)) else None)
    ensures VolumesInRange(old(bot.QueueOf(g))) ==> VolumesInRange(bot.QueueOf(g))
  {
    if !(0 <= volume <= 100) {
      return VolumeOutOfRange;
    }
    if !v.Connected? {
      return NotConnectedReply;
    }
    var q := bot.GetQueue(g);
    if q.current.Some? {
      q.current := Some(q.current.value.(volume := volume));
    }
    reply := VolumeSet(volume);
  }

  /** `/queue` (main.py:266-296): "Queue is empty!" when there is neither a
      current song nor a pending one; otherwise the current song when the
      sink is streaming, and the listing of the pending songs when there are
      any. */
  method ShowQueue(bot: MusicBot, g: GuildId, v: Voice) returns (reply: Reply)
    requires bot.Valid()
    modifies bot
    ensures bot.Valid()
    ensures forall k :: k in old(bot.musicQueues) ==> k in bot.musicQueues && bot.musicQueues[k] == old(bot.musicQueues[k])
    ensures bot.musicQueues.Keys == old(bot.musicQueues.Keys) + {g}
    ensures forall k :: bot.QueueOf(k) == old(bot.QueueOf(k))
    ensures var s := bot.QueueOf(g);
      && (reply == QueueEmpty <==> s.current.None? && s.pending == [])
      && (reply != QueueEmpty ==>
            && reply.QueueEmbed?
            && reply.nowPlaying == (if IsPlaying(v) then s.current else None)
            && (reply.upNext.Some? <==> s.pending != [])
            && (reply.upNext.Some? ==>
                  var u := reply.upNext.value;
                  && u.count == |s.pending| && |u.lines| == Min(MaxListed, |s.pending|)
                  && (forall i :: 0 <= i < |u.lines| ==> u.lines[i] == EntryText(i + 1, s.pending[i]))
                  && (u.more.Some? <==> |s.pending| > MaxListed)
                  && (u.more.Some? ==> |u.lines| + u.more.value == |s.pending|)))
  {
    var q := bot.GetQueue(g);
    if q.current.None? && |q.queue| == 0 {
      return QueueEmpty;
    }
    var nowPlaying := if q.current.Some? && IsPlaying(v) then q.current else None;
    var upNext := None;
    if |q.queue| > 0 {
      var view := ListUpNext(q.queue);
      upNext := Some(view);
    }
    reply := QueueEmbed(nowPlaying, upNext);
  }
}
