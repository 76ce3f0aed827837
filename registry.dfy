/** The bot's per-guild registry (`MusicBot.music_queues` and `get_queue`,
    main.py:95 and main.py:102-105): a dictionary from guild id to that
    guild's queue, filled lazily and never emptied. */
module Registry {
  import opened Songs
  import opened MusicQueues

  class MusicBot {
    var musicQueues: map<GuildId, MusicQueue>

    /** Every guild has a queue object of its own. */
    ghost predicate Valid()
      reads this
    {
      forall a, b :: a in musicQueues && b in musicQueues && a != b ==> musicQueues[a] != musicQueues[b]
    }

    /** The state of a guild's queue; a guild without an entry reads as a
        new queue, which is what `get_queue` would give it. */
    ghost function QueueOf(g: GuildId): QueueState
      reads this, musicQueues.Values
    {
      if g in musicQueues then musicQueues[g].State() else Initial()
    }

    constructor ()
      ensures Valid() && musicQueues == map[]
    {
      musicQueues := map[];
    }

    /** `get_queue` (main.py:102-105): the guild's queue, created on first
        use. An existing entry is returned as it is and no other entry
        changes. */
    method GetQueue(g: GuildId) returns (q: MusicQueue)
      requires Valid()
      modifies this
      ensures Valid()
      ensures g in musicQueues && q == musicQueues[g]
      ensures musicQueues.Keys == old(musicQueues.Keys) + {g}
      ensures forall k :: k in old(musicQueues) ==> musicQueues[k] == old(musicQueues[k])
      ensures g in old(musicQueues) ==> musicQueues == old(musicQueues)
      ensures g !in old(musicQueues) ==> fresh(q) && q.State() == Initial()
      ensures musicQueues.Values == old(musicQueues.Values) + {q}
      ensures QueueOf(g) == old(QueueOf(g))
    {
      if g !in musicQueues {
        var created := new MusicQueue();
        musicQueues := musicQueues[g := created];
      }
      q := musicQueues[g];
    }
  }

  /** Asking twice for the same guild gives the very same queue object, and
      the second call changes nothing. */
  method GetQueueTwice(bot: MusicBot, g: GuildId) returns (q1: MusicQueue, q2: MusicQueue)
    requires bot.Valid()
    modifies bot
    ensures bot.Valid() && q1 == q2 && g in bot.musicQueues && q1 == bot.musicQueues[g]
  {
    q1 := bot.GetQueue(g);
    ghost var after := bot.musicQueues;
    q2 := bot.GetQueue(g);
    assert bot.musicQueues == after;
  }
}
