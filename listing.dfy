/** The "Up Next" part of the `/queue` reply (main.py:282-294): at most ten
    numbered entries, and a footer counting the songs that did not fit. */
module QueueListing {
  import opened Songs
  import opened DurationFormat

  /** At most this many pending songs are listed. */
  const MaxListed: nat := 10

  /** `f"{i}. **{title}**\n   Requested by {mention}"` */
  function EntryText(number: nat, song: Song): (r: string) {
    NatText(number) + ". **" + song.title + "**\n   Requested by " + song.requester
  }

  datatype UpNext = UpNext(count: nat, lines: seq<string>, more: Option<nat>)

  function Min(a: nat, b: nat): (r: nat) {
    if a <= b then a else b
  }

  /** Builds the numbered entries for the first ten pending songs (the
      `enumerate(list(queue.queue)[:10], 1)` loop) and the count for the
      "And N more songs..." footer. */
  method ListUpNext(pending: seq<Song>) returns (view: UpNext)
    ensures view.count == |pending|
    ensures |view.lines| == Min(MaxListed, |pending|)
    ensures forall i :: 0 <= i < |view.lines| ==> view.lines[i] == EntryText(i + 1, pending[i])
    ensures view.more.Some? <==> |pending| > MaxListed
    ensures view.more.Some? ==> |view.lines| + view.more.value == |pending|
  {
    var shown := if |pending| <= MaxListed then pending else pending[..MaxListed];
    var lines: seq<string> := [];
    var i := 0;
    while i < |shown|
      invariant 0 <= i <= |shown|
      invariant |lines| == i
      invariant forall j :: 0 <= j < i ==> lines[j] == EntryText(j + 1, pending[j])
    {
      lines := lines + [EntryText(i + 1, shown[i])];
      i := i + 1;
    }
    var more := if |pending| > MaxListed then Some(|pending| - MaxListed) else None;
    view := UpNext(|pending|, lines, more);
  }

  /** Each listed entry starts with its position in the queue, counted from
      one, followed by ". ". */
  lemma EntryStartsWithNumber(number: nat, song: Song)
    ensures var e, n := EntryText(number, song), NatText(number);
      |e| > |n| + 1 && e[..|n|] == n && e[|n|..|n| + 2] == ". " && ParseNat(e[..|n|]) == number
  {
    ParseNatText(number);
    var e, n := EntryText(number, song), NatText(number);
    assert e[..|n|] == n;
  }
}
