/** The text the bot shows for a song's duration (main.py:149 and
    main.py:193): `f"{d // 60}:{d % 60:02d}"`, and "Unknown" in the
    "Added to Queue" embed when the duration is missing or zero. */
module DurationFormat {
  import opened Songs

  predicate IsDigit(c: char) {
    '0' <= c <= '9'
  }

  predicate AllDigits(s: string) {
    forall i :: 0 <= i < |s| ==> IsDigit(s[i])
  }

  function Digit(d: nat): (c: char)
    requires d < 10
    ensures IsDigit(c)
  {
    ('0' as int + d) as char
  }

  function DigitValue(c: char): (r: nat)
    requires IsDigit(c)
  {
    c as int - '0' as int
  }

  /** Python's `str(n)` for a non-negative integer: decimal digits, no
      leading zero except for 0 itself. */
  function NatText(n: nat): (r: string)
    ensures |r| >= 1 && AllDigits(r)
    ensures r[0] == '0' <==> n == 0
    ensures n < 10 <==> |r| == 1
  {
    if n < 10 then [Digit(n)] else NatText(n / 10) + [Digit(n % 10)]
  }

  /** Reads a string of decimal digits back as a number. */
  function ParseNat(s: string): (r: nat)
    requires AllDigits(s)
  {
    if s == [] then 0 else ParseNat(s[..|s| - 1]) * 10 + DigitValue(s[|s| - 1])
  }

  /** The decimal text of a number reads back as that number. */
  lemma {:induction false} ParseNatText(n: nat)
    ensures ParseNat(NatText(n)) == n
  {
    if n >= 10 {
      var r := NatText(n);
      assert r[..|r| - 1] == NatText(n / 10);
      ParseNatText(n / 10);
    }
  }

  /** Python's `f"{n:02d}"` for a non-negative integer: zero-padded to at
      least two digits. */
  function ZeroPad2(n: nat): (r: string)
    ensures AllDigits(r) && |r| >= 2
    ensures n < 100 ==> |r| == 2
    ensures ParseNat(r) == n
  {
    ParseNatText(n);
    if n < 10 then
      var r := ['0'] + NatText(n);
      assert r[..|r| - 1] == ['0'];
      r
    else
      NatText(n)
  }

  /** `f"{d // 60}:{d % 60:02d}"`. Dafny's `/` and `%` agree with Python's
      `//` and `%` for the positive divisor 60. */
  function DurationText(d: nat): (r: string)
  {
    NatText(d / 60) + ":" + ZeroPad2(d % 60)
  }

  /** Splits "m:ss" into minutes and seconds: the reading a listener makes
      of the displayed duration. */
  function ParseClock(s: string): (r: Option<(nat, nat)>)
  {
    if |s| >= 4 && s[|s| - 3] == ':' && AllDigits(s[..|s| - 3]) && AllDigits(s[|s| - 2..])
    then Some((ParseNat(s[..|s| - 3]), ParseNat(s[|s| - 2..])))
    else None
  }

  /** The displayed duration reads back as minutes and seconds that make up
      the duration, with the seconds below a minute. */
  lemma DurationTextReadsBack(d: nat)
    ensures ParseClock(DurationText(d)).Some?
    ensures var (m, sec) := ParseClock(DurationText(d)).value;
      m * 60 + sec == d && 0 <= sec < 60
  {
    var m, r := NatText(d / 60), ZeroPad2(d % 60);
    var s := DurationText(d);
    assert |r| == 2;
    assert s[..|s| - 3] == m;
    assert s[|s| - 2..] == r;
    ParseNatText(d / 60);
  }

  /** The "Duration" field of the "Added to Queue" embed (main.py:149):
      a missing or zero duration is falsy in Python and shows "Unknown". */
  function AddedDurationField(d: Option<nat>): (r: string)
    ensures d.Some? && d.value > 0 ==> r == DurationText(d.value) && ParseClock(r).Some?
    ensures (d.None? || d.value == 0) <==> r == "Unknown"
  {
    if d.Some? && d.value != 0 then
      DurationTextReadsBack(d.value);
      DurationText(d.value)
    else "Unknown"
  }

  /** The "Duration" field of the "Now Playing" embed (main.py:192-193): the
      field is only added when the duration is truthy. */
  function NowPlayingDurationField(d: Option<nat>): (r: Option<string>)
    ensures r.Some? <==> d.Some? && d.value > 0
    ensures r.Some? ==> r.value == AddedDurationField(d)
  {
    if d.Some? && d.value != 0 then Some(DurationText(d.value)) else None
  }
}
