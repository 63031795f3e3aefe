/** The computations of the home page: the `m:ss` rendering of a track's
    duration and the truncations of the lists it shows. */
module Home {
  import Decimal
  import SpotifyApi

  const MsPerMinute: nat := 60000
  const MsPerSecond: nat := 1000
  /** How many category names the page keeps. */
  const CategoriesKept: nat := 11
  /** How many new releases the top grid shows. */
  const TopGridSize: nat := 6

  /** `String.prototype.padStart`: `fill` repeated in front of `s` until the
      string is `width` long; a string already that long is left as it is. */
  function PadStart(s: string, width: nat, fill: char): (r: string)
    ensures |r| == if |s| >= width then |s| else width
    ensures r[|r| - |s|..] == s
    ensures forall i :: 0 <= i < |r| - |s| ==> r[i] == fill
  {
    if |s| >= width then s else seq(width - |s|, _ => fill) + s
  }

  /** A seconds count below 60, padded to two digits, reads back as itself. */
  lemma PaddedSeconds(seconds: nat)
    requires seconds < 60
    ensures var p := PadStart(Decimal.FromNat(seconds), 2, '0');
      |p| == 2 && Decimal.AllDigits(p) && Decimal.ToNat(p) == seconds
  {
    var d := Decimal.FromNat(seconds);
    Decimal.ToNatFromNat(seconds);
    if |d| < 2 {
      assert PadStart(d, 2, '0') == "0" + d;
      Decimal.ToNatLeadingZero(d);
    }
  }

  /** A duration as the page shows it: whole minutes and seconds. */
  datatype Clock = Clock(minutes: nat, seconds: nat)

  /** Reads an `m:ss` string: one or more digits, a colon, exactly two digits. */
  function ParseClock(s: string): SpotifyApi.Option<Clock> {
    if |s| >= 4 && s[|s| - 3] == ':' && Decimal.AllDigits(s[..|s| - 3]) && Decimal.AllDigits(s[|s| - 2..])
    then SpotifyApi.Some(Clock(Decimal.ToNat(s[..|s| - 3]), Decimal.ToNat(s[|s| - 2..])))
    else SpotifyApi.None
  }

  /** The duration of a track, in milliseconds, as `m:ss`: the floor of the
      minutes, then the floor of the seconds left over, in two digits. */
  function FormatDuration(durationMs: nat): (r: string)
    ensures ParseClock(r) == SpotifyApi.Some(Clock(durationMs / MsPerMinute, durationMs % MsPerMinute / MsPerSecond))
    ensures r[0] == '0' ==> durationMs < MsPerMinute && |r| == 4
  {
    var minutes := durationMs / MsPerMinute;
    var seconds := durationMs % MsPerMinute / MsPerSecond;
    var mm := Decimal.FromNat(minutes);
    var ss := PadStart(Decimal.FromNat(seconds), 2, '0');
    Decimal.ToNatFromNat(minutes);
    PaddedSeconds(seconds);
    var r := mm + ":" + ss;
    assert r[..|r| - 3] == mm && r[|r| - 2..] == ss && r[|r| - 3] == ':';
    r
  }

  /** Minutes and seconds both follow from the whole seconds of a duration. */
  lemma WholeSeconds(n: nat)
    ensures n / MsPerMinute == n / MsPerSecond / 60
    ensures n % MsPerMinute / MsPerSecond == n / MsPerSecond % 60
  {
    var q, r := n / 60000, n % 60000;
    assert n == 60000 * q + r && r < 60000;
    var s, t := r / 1000, r % 1000;
    assert r == 1000 * s + t && s < 60;
    assert n == 1000 * (60 * q + s) + t;
    assert n / 1000 == 60 * q + s;
  }

  /** The rendering keeps the seconds below 60 and loses only the sub-second
      remainder: what it shows is the duration rounded down to a second. */
  lemma FormatDurationBracket(durationMs: nat)
    ensures var c := ParseClock(FormatDuration(durationMs));
      && c.Some?
      && c.value.seconds < 60
      && c.value.minutes * MsPerMinute + c.value.seconds * MsPerSecond <= durationMs
      && durationMs < c.value.minutes * MsPerMinute + c.value.seconds * MsPerSecond + MsPerSecond
  {
    var q, r := durationMs / 60000, durationMs % 60000;
    assert durationMs == 60000 * q + r && r < 60000;
    var s, t := r / 1000, r % 1000;
    assert r == 1000 * s + t && s < 60;
  }

  /** Two durations render alike exactly when they agree in whole seconds. */
  lemma FormatDurationAgreesOnWholeSeconds(a: nat, b: nat)
    ensures FormatDuration(a) == FormatDuration(b) <==> a / MsPerSecond == b / MsPerSecond
  {
    WholeSeconds(a);
    WholeSeconds(b);
    var x, y := a / 1000, b / 1000;
    if FormatDuration(a) == FormatDuration(b) {
      assert x / 60 == y / 60 && x % 60 == y % 60;
      assert x == 60 * (x / 60) + x % 60;
      assert y == 60 * (y / 60) + y % 60;
    }
  }

  /** `Array.prototype.slice(0, n)` for a non-negative `n`. */
  function Prefix<T>(s: seq<T>, n: nat): (r: seq<T>)
    ensures |r| == if n < |s| then n else |s|
    ensures forall i :: 0 <= i < |r| ==> r[i] == s[i]
  {
    if n < |s| then s[..n] else s
  }

  /** The category names the page keeps: the first eleven, in order. */
  function KeptCategories(names: seq<string>): (r: seq<string>)
    ensures |r| == if |names| < CategoriesKept then |names| else CategoriesKept
    ensures r == names[..|r|]
  {
    Prefix(names, CategoriesKept)
  }

  /** The new releases in the top grid: the first six, in order. */
  function TopGrid(tracks: seq<SpotifyApi.SpotifyTrack>): (r: seq<SpotifyApi.SpotifyTrack>)
    ensures |r| == if |tracks| < TopGridSize then |tracks| else TopGridSize
    ensures r == tracks[..|r|]
  {
    Prefix(tracks, TopGridSize)
  }

  /** The categories shown are the names of the first eleven categories of
      the response, in the response's order. */
  lemma ShownCategories(items: seq<SpotifyApi.Category>)
    ensures var r := KeptCategories(SpotifyApi.CategoryNames(items));
      && |r| == (if |items| < CategoriesKept then |items| else CategoriesKept)
      && forall i :: 0 <= i < |r| ==> r[i] == items[i].name
  {
  }
}
