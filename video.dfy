/**
 * The video player's time label and duration: `formatTime` turns a
 * position in milliseconds into "M:SS", and a player duration that is not
 * positive is reported as 0.
 */
module VideoTime {
  import Kotlin
  import Text

  /** `String.format("%02d", n)`: at least two characters, zero-padded (ASCII digits). */
  function Pad2(n: int): (r: string)
    ensures 0 <= n < 10 ==> r == "0" + Text.NatToString(n)
    ensures !(0 <= n < 10) ==> r == Text.IntToString(n)
  {
    if 0 <= n < 10 then "0" + Text.NatToString(n) else Text.IntToString(n)
  }

  /**
   * `formatTime(millis)`: "0:00" up to 0; otherwise the whole seconds, cut
   * to a Kotlin `Int` (`toInt()` wraps), as minutes and two-digit seconds.
   */
  function FormatTime(millis: int): (r: string)
    ensures millis <= 0 ==> r == "0:00"
    ensures 0 < millis <= MAX_EXACT_MILLIS ==>
      r == Text.NatToString(millis / 1000 / 60) + ":" + Pad2(millis / 1000 % 60)
  {
    if millis <= 0 then "0:00"
    else
      assert Kotlin.Div(millis, 1000) == millis / 1000;
      assert Kotlin.Div(millis / 1000, 60) == millis / 1000 / 60;
      assert Kotlin.Rem(millis / 1000, 60) == millis / 1000 % 60;
      var seconds := Kotlin.ToInt32(Kotlin.Div(millis, 1000));
      var minutes := Kotlin.Div(seconds, 60);
      var secs := Kotlin.Rem(seconds, 60);
      Text.IntToString(minutes) + ":" + Pad2(secs)
  }

  /** The largest position whose whole seconds fit in an `Int`. */
  const MAX_EXACT_MILLIS: int := (Kotlin.INT_MAX + 1) * 1000 - 1

  /** Seconds in 0..59 are printed as exactly two digits that read back as the number. */
  lemma Pad2TwoDigits(n: int)
    requires 0 <= n < 60
    ensures |Pad2(n)| == 2 && Text.IsDigits(Pad2(n)) && Text.DigitsValue(Pad2(n)) == n
  {
    var r := Pad2(n);
    var hi, lo := n / 10, n % 10;
    if n < 10 {
      assert r == [Text.DigitChar(0), Text.DigitChar(lo)];
    } else {
      assert Text.NatToString(hi) == [Text.DigitChar(hi)];
      assert r == [Text.DigitChar(hi), Text.DigitChar(lo)];
    }
    assert r[..1][..0] == [];
    assert Text.DigitsValue(r[..1]) == hi;
    assert Text.DigitsValue(r) == hi * 10 + lo;
  }

  /**
   * Below `MAX_EXACT_MILLIS`, the label is the unpadded, uncapped number of
   * whole minutes, a colon and exactly two digits of seconds in 0..59, and
   * it reads back as the whole seconds of the position.
   */
  lemma FormatTimeReadsBack(millis: int)
    requires 0 < millis <= MAX_EXACT_MILLIS
    ensures var s := millis / 1000;
      && FormatTime(millis) == Text.NatToString(s / 60) + ":" + Pad2(s % 60)
      && |Pad2(s % 60)| == 2 && Text.IsDigits(Pad2(s % 60))
      && Text.DigitsValue(Text.NatToString(s / 60)) * 60 + Text.DigitsValue(Pad2(s % 60)) == s
  {
    var s := millis / 1000;
    assert Kotlin.Div(millis, 1000) == s;
    assert Kotlin.Div(s, 60) == s / 60;
    assert Kotlin.Rem(s, 60) == s % 60;
    Pad2TwoDigits(s % 60);
    Text.NatToStringValue(s / 60);
  }

  /** Nothing at or before the start shows anything but "0:00". */
  lemma FormatTimeNotStarted(millis: int)
    requires millis <= 0
    ensures FormatTime(millis) == "0:00"
  {
  }

  /** From 2^31 seconds on, `toInt()` wraps and the label turns negative. */
  lemma FormatTimeWraps()
    ensures FormatTime((Kotlin.INT_MAX + 1) * 1000)[0] == '-'
  {
    assert Kotlin.ToInt32(Kotlin.INT_MAX + 1) == Kotlin.INT_MIN;
  }

  /** The duration the player screen keeps: the player's duration when positive, otherwise 0. */
  function ClampDuration(d: int): (r: int)
    ensures r >= 0
    ensures d > 0 ==> r == d
    ensures d <= 0 ==> r == 0
  {
    if d > 0 then d else 0
  }
}
