/** The per-guild playback queue (class MusicQueue, main.py:61-86): a FIFO of
    pending songs, the song considered current, the `is_playing` flag and the
    two loop flags. `QueueState` is its abstract value; the functions below
    specify each operation on that value and the lemmas state what the
    operations promise. The class at the end updates its fields in place and
    is proved against these functions. */
module MusicQueues {
  import opened Songs

  datatype QueueState = QueueState(
    pending: seq<Song>,
    current: Option<Song>,
    isPlaying: bool,
    loop: bool,
    loopQueue: bool)

  /** A new queue (main.py:62-67). */
  function Initial(): (r: QueueState) {
    QueueState([], None, false, false, false)
  }

  /** `add` (main.py:69-70). */
  function Added(s: QueueState, song: Song): (r: QueueState) {
    s.(pending := s.pending + [song])
  }

  /** `get_next` (main.py:72-81): the new state and the song handed out. */
  function NextOf(s: QueueState): (r: (QueueState, Option<Song>)) {
    if s.loop && s.current.Some? then
      (s, s.current)
    else
      var p := if s.loopQueue && s.current.Some? then s.pending + [s.current.value] else s.pending;
      if |p| > 0 then
        (s.(pending := p[1..], current := Some(p[0])), Some(p[0]))
      else
        (s.(pending := p), None)
  }

  /** `clear` (main.py:83-86); the loop flags survive it. */
  function Cleared(s: QueueState): (r: QueueState) {
    s.(pending := [], current := None, isPlaying := false)
  }

  /** The state and the songs handed out after `n` successive `get_next` calls. */
  function Run(s: QueueState, n: nat): (r: (QueueState, seq<Option<Song>>))
    decreases n
  {
    if n == 0 then (s, [])
    else
      var (t, o) := NextOf(s);
      var (u, os) := Run(t, n - 1);
      (u, [o] + os)
  }

  /** Several `add` calls in a row. */
  function AddedAll(s: QueueState, songs: seq<Song>): (r: QueueState)
    decreases |songs|
  {
    if songs == [] then s else AddedAll(Added(s, songs[0]), songs[1..])
  }

  function Somes(songs: seq<Song>): (r: seq<Option<Song>>)
    ensures |r| == |songs|
    ensures forall i :: 0 <= i < |songs| ==> r[i] == Some(songs[i])
  {
    seq(|songs|, i requires 0 <= i < |songs| => Some(songs[i]))
  }

  // ---------------------------------------------------------------- add

  /** `add` puts the song at the tail and changes nothing else. */
  lemma AddedAppends(s: QueueState, song: Song)
    ensures var t := Added(s, song);
      |t.pending| == |s.pending| + 1 && t.pending[|s.pending|] == song
      && t.pending[..|s.pending|] == s.pending
      && t.current == s.current && t.isPlaying == s.isPlaying
      && t.loop == s.loop && t.loopQueue == s.loopQueue
  {
    assert Added(s, song).pending[..|s.pending|] == s.pending;
  }

  /** A series of `add` calls appends the songs in order. */
  lemma {:induction false} AddedAllAppends(s: QueueState, songs: seq<Song>)
    ensures AddedAll(s, songs) == s.(pending := s.pending + songs)
    decreases |songs|
  {
    if songs != [] {
      AddedAllAppends(Added(s, songs[0]), songs[1..]);
      assert (s.pending + [songs[0]]) + songs[1..] == s.pending + songs;
    }
  }

  // ---------------------------------------------------------- get_next

  /** With `loop` on and a current song, `get_next` hands the current song
      out again and changes nothing. */
  lemma NextLoopCurrent(s: QueueState)
    requires s.loop && s.current.Some?
    ensures NextOf(s) == (s, s.current)
  {
  }

  /** `get_next` hands out nothing exactly when there is no pending song and
      no current song to loop over; in that case the state stays as it was,
      `current` included. */
  lemma NextNoneIff(s: QueueState)
    ensures NextOf(s).1.None? <==>
      |s.pending| == 0 && !(s.current.Some? && (s.loop || s.loopQueue))
    ensures NextOf(s).1.None? ==> NextOf(s).0 == s
  {
  }

  /** Whatever `get_next` hands out becomes `current`, and only the pending
      queue and `current` change. */
  lemma NextBecomesCurrent(s: QueueState)
    ensures var (t, o) := NextOf(s);
      (o.Some? ==> t.current == o)
      && t.isPlaying == s.isPlaying && t.loop == s.loop && t.loopQueue == s.loopQueue
  {
  }

  /** With both loop flags off, `k` successive `get_next` calls hand out the
      first `k` pending songs in order, each becoming `current` in turn, and
      leave the rest pending. */
  lemma {:induction false} RunFifo(s: QueueState, k: nat)
    requires !s.loop && !s.loopQueue
    requires k <= |s.pending|
    ensures Run(s, k).1 == Somes(s.pending[..k])
    ensures Run(s, k).0 == s.(pending := s.pending[k..],
                              current := if k == 0 then s.current else Some(s.pending[k - 1]))
    decreases k
  {
    if k > 0 {
      var t := NextOf(s).0;
      assert t == s.(pending := s.pending[1..], current := Some(s.pending[0]));
      RunFifo(t, k - 1);
      assert t.pending[k - 1..] == s.pending[k..];
      assert [Some(s.pending[0])] + Somes(t.pending[..k - 1]) == Somes(s.pending[..k]);
      if k > 1 {
        assert t.pending[k - 2] == s.pending[k - 1];
      }
    }
  }

  /** After a series of `add`s to a queue with both loop flags off, the
      `get_next` calls hand out every pending song, then every added song,
      each exactly once and in FIFO order; the call after that hands out
      nothing. */
  lemma AddThenDrainFifo(s: QueueState, songs: seq<Song>)
    requires !s.loop && !s.loopQueue
    ensures Run(AddedAll(s, songs), |s.pending| + |songs|).1 == Somes(s.pending + songs)
    ensures Run(AddedAll(s, songs), |s.pending| + |songs|).0.pending == []
    ensures NextOf(Run(AddedAll(s, songs), |s.pending| + |songs|).0).1 == None
  {
    AddedAllAppends(s, songs);
    var a := AddedAll(s, songs);
    RunFifo(a, |a.pending|);
    assert a.pending[..|a.pending|] == a.pending;
    var t := Run(a, |a.pending|).0;
    assert t.pending == [] && !t.loop && !t.loopQueue;
  }

  /** The songs of a looping queue in the order they will come round: the
      pending songs, then the current one (which `get_next` re-queues). */
  function Ring(s: QueueState): (r: seq<Song>)
    requires s.current.Some?
    ensures |r| == |s.pending| + 1
  {
    s.pending + [s.current.value]
  }

  /** With `loop_queue` on (and `loop` off) and a current song, `get_next`
      hands out the head of the ring and rotates the ring by one: no song is
      lost or duplicated. */
  lemma NextRotates(s: QueueState)
    requires !s.loop && s.loopQueue && s.current.Some?
    ensures var (t, o) := NextOf(s);
      t.current.Some? && o == Some(Ring(s)[0])
      && Ring(t) == Ring(s)[1..] + [Ring(s)[0]]
      && multiset(Ring(t)) == multiset(Ring(s))
      && t.loop == s.loop && t.loopQueue == s.loopQueue && t.isPlaying == s.isPlaying
  {
    var r := Ring(s);
    assert r == [r[0]] + r[1..];
  }

  /** With `loop_queue` on and nothing else pending, `get_next` hands out the
      current song again. */
  lemma NextLoopQueueAlone(s: QueueState)
    requires !s.loop && s.loopQueue && s.current.Some? && s.pending == []
    ensures NextOf(s) == (s, s.current)
  {
    assert (s.pending + [s.current.value])[1..] == [];
  }

  lemma ModStep(i: nat, n: nat)
    requires n > 0 && i > 0
    ensures ((i - 1) % n + 1) % n == i % n
  {
    var q, r := (i - 1) / n, (i - 1) % n;
    assert i == q * n + (r + 1);
    if r + 1 < n {
      ModOf(i, n, q, r + 1);
    } else {
      assert i == (q + 1) * n + 0;
      ModOf(i, n, q + 1, 0);
    }
  }

  lemma ModOf(a: int, n: int, q: int, r: int)
    requires n > 0 && 0 <= r < n && a == q * n + r
    ensures a % n == r
  {
    var k := q - a / n;
    assert k * n == a % n - r;
    assert k == 0;
  }

  /** One step of the rotation, read through indices modulo the ring size. */
  lemma RotatedAt(r: seq<Song>, rot: seq<Song>, i: nat)
    requires |r| > 0 && rot == r[1..] + [r[0]] && i > 0
    ensures rot[(i - 1) % |r|] == r[i % |r|]
  {
    var L, j := |r|, (i - 1) % |r|;
    ModStep(i, L);
    if j + 1 < L {
      ModOf(j + 1, L, 0, j + 1);
    } else {
      ModOf(j + 1, L, 1, 0);
    }
  }

  /** With `loop_queue` on (and `loop` off) and a current song, the calls to
      `get_next` cycle through the ring in its original order, indefinitely,
      and the songs of the queue are conserved. */
  lemma {:induction false} RunCycles(s: QueueState, n: nat)
    requires !s.loop && s.loopQueue && s.current.Some?
    ensures Run(s, n).0.current.Some? && !Run(s, n).0.loop && Run(s, n).0.loopQueue
    ensures multiset(Ring(Run(s, n).0)) == multiset(Ring(s))
    ensures |Run(s, n).1| == n
    ensures forall i :: 0 <= i < n ==> Run(s, n).1[i] == Some(Ring(s)[i % |Ring(s)|])
    decreases n
  {
    if n > 0 {
      var t := NextOf(s).0;
      NextRotates(s);
      RunCycles(t, n - 1);
      var out, rest := Run(s, n).1, Run(t, n - 1).1;
      assert out == [NextOf(s).1] + rest;
      var r := Ring(s);
      forall i | 0 <= i < n
        ensures out[i] == Some(r[i % |r|])
      {
        if i == 0 {
          ModOf(0, |r|, 0, 0);
        } else {
          assert out[i] == rest[i - 1];
          RotatedAt(r, Ring(t), i);
        }
      }
    }
  }

  // ------------------------------------------------------------- clear

  /** `clear` empties the queue, forgets the current song and clears
      `is_playing`; doing it twice is doing it once, and `get_next` then
      hands out nothing whatever the loop flags say. */
  lemma ClearedEmpties(s: QueueState)
    ensures var t := Cleared(s);
      t.pending == [] && t.current.None? && !t.isPlaying
      && t.loop == s.loop && t.loopQueue == s.loopQueue
      && Cleared(t) == t
      && NextOf(t) == (t, None)
  {
  }

  /** As written, `get_next` keeps a finished song as `current` when the
      queue runs dry, so a `loop` turned on later replays that finished song
      in place of a newly added one. */
  lemma StaleCurrentReplays(s: QueueState, song: Song)
    requires !s.loop && s.pending == [] && s.current.Some?
    ensures var t := NextOf(s).0.(loop := true);
      NextOf(s).1.None? ==> NextOf(Added(t, song)).1 == s.current
  {
  }

  // ------------------------------------------------------------- the class

  class MusicQueue {
    var queue: seq<Song>
    var current: Option<Song>
    var isPlaying: bool
    var loop: bool
    var loopQueue: bool

    function State(): QueueState
      reads this
    {
      QueueState(queue, current, isPlaying, loop, loopQueue)
    }

    constructor ()
      ensures State() == Initial()
    {
      queue := [];
      current := None;
      isPlaying := false;
      loop := false;
      loopQueue := false;
    }

    method Add(song: Song)
      modifies this
      ensures State() == Added(old(State()), song)
    {
      queue := queue + [song];
    }

    method GetNext() returns (next: Option<Song>)
      modifies this
      ensures (State(), next) == NextOf(old(State()))
    {
      if loop && current.Some? {
        return current;
      } else if loopQueue && current.Some? {
        queue := queue + [current.value];
      }
      if |queue| > 0 {
        current := Some(queue[0]);
        queue := queue[1..];
        return current;
      }
      return None;
    }

    method Clear()
      modifies this
      ensures State() == Cleared(old(State()))
    {
      queue := [];
      current := None;
      isPlaying := false;
    }
  }
}
