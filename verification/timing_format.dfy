/** The text formats of the timing tower: lap times as `M:SS.mmm`, signed
    deltas as `+S.mmms`, sector times as `S.mmm`, and the placeholder dash for
    anything missing. Durations are integer milliseconds, so `toFixed(3)` of a
    number of seconds is exact: whole seconds, a point, three digits. */
module TimingFormat {
  import opened Common

  /** The em dash shown for a missing value. */
  const Dash := "\U{2014}"

  function TwoDigits(n: nat): string
    requires n < 100
  {
    [DigitChar(n / 10), DigitChar(n % 10)]
  }

  function ThreeDigits(n: nat): string
    requires n < 1000
  {
    [DigitChar(n / 100), DigitChar(n / 10 % 10), DigitChar(n % 10)]
  }

  /** `String(n)` for any integer. */
  function IntToString(n: int): string {
    if n < 0 then "-" + NatToString(-n) else NatToString(n)
  }

  /** `(ms / 1000).toFixed(3)`: optional minus, whole seconds, point, three digits. */
  function Fixed3(ms: int): (text: string)
    ensures 5 <= |text| && text[|text| - 4] == '.'
    ensures text[0] == '-' <==> ms < 0
  {
    var magnitude := if ms < 0 then -ms else ms;
    (if ms < 0 then "-" else "") + NatToString(magnitude / 1000) + "." + ThreeDigits(magnitude % 1000)
  }

  /** Reads back the text `Fixed3` writes. */
  function ParseFixed3(text: string): Option<int> {
    if |text| < 5 || text[|text| - 4] != '.' then None
    else
      var fraction := text[|text| - 3..];
      var head := text[..|text| - 4];
      var negative := head != [] && head[0] == '-';
      var whole := ParseNat(if negative then head[1..] else head);
      if !AllDigits(fraction) || whole.None? then None
      else
        var magnitude := whole.value * 1000 + DigitsValue(fraction);
        Some(if negative then -magnitude else magnitude)
  }

  lemma ThreeDigitsValue(n: nat)
    requires n < 1000
    ensures AllDigits(ThreeDigits(n)) && DigitsValue(ThreeDigits(n)) == n
  {
    var t := ThreeDigits(n);
    assert t[..2] == t[..2][..1] + [t[1]];
    assert DigitsValue(t[..2]) == 10 * (n / 100) + n / 10 % 10 by {
      assert DigitsValue(t[..2][..1]) == n / 100;
    }
    assert DigitsValue(t) == 10 * DigitsValue(t[..2]) + n % 10;
  }

  lemma TwoDigitsValue(n: nat)
    requires n < 100
    ensures AllDigits(TwoDigits(n)) && DigitsValue(TwoDigits(n)) == n
  {
    var t := TwoDigits(n);
    assert DigitsValue(t[..1]) == n / 10;
  }

  /** Where the pieces of `a`, a separator and `b` lie in their
      concatenation. */
  lemma Around(a: string, sep: char, b: string)
    ensures var t := a + [sep] + b;
      |t| == |a| + 1 + |b| && t[|a|] == sep && t[..|a|] == a && t[|a| + 1..] == b
  {
  }

  /** Reading a text whose head before the point is known digits. */
  lemma ParseFixed3UnsignedParts(text: string, head: string, fraction: string)
    requires |text| >= 5 && text[|text| - 4] == '.'
    requires text[..|text| - 4] == head && text[|text| - 3..] == fraction
    requires AllDigits(fraction) && head != [] && AllDigits(head)
    ensures ParseFixed3(text) == Some(DigitsValue(head) * 1000 + DigitsValue(fraction))
  {
    assert IsDigit(head[0]);
    assert ParseNat(head) == Some(DigitsValue(head));
  }

  /** Reading a text whose head before the point is a minus sign and
      known digits. */
  lemma ParseFixed3SignedParts(text: string, head: string, whole: string, fraction: string)
    requires |text| >= 5 && text[|text| - 4] == '.'
    requires text[..|text| - 4] == head && text[|text| - 3..] == fraction
    requires AllDigits(fraction) && whole != [] && AllDigits(whole)
    requires head != [] && head[0] == '-' && head[1..] == whole
    ensures ParseFixed3(text) == Some(-(DigitsValue(whole) * 1000 + DigitsValue(fraction)))
  {
    assert ParseNat(whole) == Some(DigitsValue(whole));
  }

  /** Reading a text of the shape `Fixed3` writes for a non-negative
      value: whole seconds, point, three digits. */
  lemma ParseFixed3Unsigned(whole: string, fraction: string)
    requires whole != [] && AllDigits(whole)
    requires |fraction| == 3 && AllDigits(fraction)
    ensures ParseFixed3(whole + "." + fraction) == Some(DigitsValue(whole) * 1000 + DigitsValue(fraction))
  {
    Around(whole, '.', fraction);
    ParseFixed3UnsignedParts(whole + "." + fraction, whole, fraction);
  }

  /** The same with a leading minus sign. */
  lemma ParseFixed3Signed(whole: string, fraction: string)
    requires whole != [] && AllDigits(whole)
    requires |fraction| == 3 && AllDigits(fraction)
    ensures ParseFixed3("-" + whole + "." + fraction) == Some(-(DigitsValue(whole) * 1000 + DigitsValue(fraction)))
  {
    var head := "-" + whole;
    assert head[0] == '-' && head[1..] == whole;
    Around(head, '.', fraction);
    ParseFixed3SignedParts(head + "." + fraction, head, whole, fraction);
  }

  /** `toFixed(3)` on whole milliseconds loses nothing. */
  lemma Fixed3RoundTrip(ms: int)
    ensures ParseFixed3(Fixed3(ms)) == Some(ms)
  {
    var magnitude := if ms < 0 then -ms else ms;
    var whole := NatToString(magnitude / 1000);
    ThreeDigitsValue(magnitude % 1000);
    DigitsValueOfNatToString(magnitude / 1000);
    if ms < 0 {
      ParseFixed3Signed(whole, ThreeDigits(magnitude % 1000));
    } else {
      assert Fixed3(ms) == whole + "." + ThreeDigits(magnitude % 1000);
      ParseFixed3Unsigned(whole, ThreeDigits(magnitude % 1000));
    }
  }

  /** `formatDelta`: the dash for a missing value, otherwise the seconds with
      three decimals and a trailing "s", with "+" in front of a positive value. */
  function FormatDelta(value: Option<int>): (text: string)
    ensures text == Dash <==> value.None?
    ensures value.Some? ==> |text| >= 6
    ensures value.Some? ==> (text[0] == '+' <==> value.value > 0)
    ensures value.Some? ==> (text[0] == '-' <==> value.value < 0)
    ensures value.Some? ==> text[|text| - 1] == 's'
  {
    match value
    case None => Dash
    case Some(v) => if v > 0 then "+" + Fixed3(v) + "s" else Fixed3(v) + "s"
  }

  /** Reads back the text `FormatDelta` writes for a present value. */
  function ParseDelta(text: string): Option<int> {
    if text == [] || text[|text| - 1] != 's' then None
    else
      var body := text[..|text| - 1];
      if body != [] && body[0] == '+' then ParseFixed3(body[1..]) else ParseFixed3(body)
  }

  /** Every present delta can be read back from its text. */
  lemma FormatDeltaRoundTrip(v: int)
    ensures ParseDelta(FormatDelta(Some(v))) == Some(v)
  {
    Fixed3RoundTrip(v);
    var text := FormatDelta(Some(v));
    if v > 0 {
      assert text[..|text| - 1][1..] == Fixed3(v);
    } else {
      assert text[..|text| - 1] == Fixed3(v);
    }
  }

  /** The `SS.mmm` part of a lap time: `toFixed(3)` of the seconds within the
      minute, left-padded with "0" to six characters. */
  function SecondsPart(msInMinute: nat): string
    requires msInMinute < 60000
  {
    PadStart(Fixed3(msInMinute), 6, '0')
  }

  /** The padded seconds are always two digits, a point and three digits. */
  lemma SecondsPartShape(msInMinute: nat)
    requires msInMinute < 60000
    ensures SecondsPart(msInMinute) == TwoDigits(msInMinute / 1000) + "." + ThreeDigits(msInMinute % 1000)
  {
    var s := msInMinute / 1000;
    if s >= 10 {
      assert NatToString(s) == NatToString(s / 10) + [DigitChar(s % 10)];
      assert NatToString(s / 10) == [DigitChar(s / 10)];
    }
  }

  /** `formatLapSeconds`: the dash for a missing, zero or negative duration,
      otherwise whole minutes, a colon and the padded seconds. */
  function FormatLapSeconds(value: Option<int>): (text: string)
    ensures text == Dash <==> value.None? || value.value <= 0
  {
    match value
    case None => Dash
    case Some(v) =>
      if v <= 0 then Dash
      else NatToString(v / 60000) + ":" + SecondsPart(v % 60000)
  }

  /** Reads back the text `FormatLapSeconds` writes for a positive duration. */
  function ParseLapTime(text: string): Option<int> {
    if |text| < 8 || text[|text| - 7] != ':' || text[|text| - 4] != '.' then None
    else
      var minutes := ParseNat(text[..|text| - 7]);
      var seconds := text[|text| - 6..|text| - 4];
      var millis := text[|text| - 3..];
      if minutes.None? || !AllDigits(seconds) || !AllDigits(millis) then None
      else Some(minutes.value * 60000 + DigitsValue(seconds) * 1000 + DigitsValue(millis))
  }

  /** Reading a text of the shape `M:SS.mmm`. */
  lemma ParseLapTimeShape(minutes: string, seconds: string, millis: string)
    requires minutes != [] && AllDigits(minutes)
    requires |seconds| == 2 && AllDigits(seconds) && |millis| == 3 && AllDigits(millis)
    ensures ParseLapTime(minutes + ":" + seconds + "." + millis)
      == Some(DigitsValue(minutes) * 60000 + DigitsValue(seconds) * 1000 + DigitsValue(millis))
  {
    var head := minutes + ":" + seconds;
    var text := head + "." + millis;
    Around(minutes, ':', seconds);
    Around(head, '.', millis);
    assert |text| == |minutes| + 7;
    assert text[..|text| - 7] == head[..|minutes|] by {
      assert text[..|head|] == head;
    }
    assert text[|text| - 7] == head[|minutes|];
    assert text[|text| - 6..|text| - 4] == head[|minutes| + 1..] by {
      assert text[..|head|] == head;
    }
    ParseLapTimeParts(text, minutes, seconds, millis);
  }

  /** Reading a lap time whose pieces are known. */
  lemma ParseLapTimeParts(text: string, minutes: string, seconds: string, millis: string)
    requires minutes != [] && AllDigits(minutes)
    requires |seconds| == 2 && AllDigits(seconds) && |millis| == 3 && AllDigits(millis)
    requires |text| == |minutes| + 7 && text[|text| - 7] == ':' && text[|text| - 4] == '.'
    requires text[..|text| - 7] == minutes && text[|text| - 6..|text| - 4] == seconds && text[|text| - 3..] == millis
    ensures ParseLapTime(text) == Some(DigitsValue(minutes) * 60000 + DigitsValue(seconds) * 1000 + DigitsValue(millis))
  {
  }

  /** The pieces of a printed lap time: minutes, colon, two digits of
      seconds, point, three digits of milliseconds. */
  lemma LapTextShape(v: int)
    requires v > 0
    ensures var r := v % 60000;
      FormatLapSeconds(Some(v)) == NatToString(v / 60000) + ":" + TwoDigits(r / 1000) + "." + ThreeDigits(r % 1000)
  {
    var r := v % 60000;
    SecondsPartShape(r);
    var m := NatToString(v / 60000);
    var a := TwoDigits(r / 1000);
    var b := ThreeDigits(r % 1000);
    assert m + ":" + (a + "." + b) == m + ":" + a + "." + b;
  }

  /** Minutes, seconds and milliseconds add back up to the duration. */
  lemma LapArithmetic(v: nat)
    ensures v == (v / 60000) * 60000 + ((v % 60000) / 1000) * 1000 + (v % 60000) % 1000
  {
  }

  /** A positive lap time is printed as `M:SS.mmm` and can be read back. */
  lemma FormatLapRoundTrip(v: int)
    requires v > 0
    ensures ParseLapTime(FormatLapSeconds(Some(v))) == Some(v)
  {
    var r := v % 60000;
    LapTextShape(v);
    TwoDigitsValue(r / 1000);
    ThreeDigitsValue(r % 1000);
    DigitsValueOfNatToString(v / 60000);
    ParseLapTimeShape(NatToString(v / 60000), TwoDigits(r / 1000), ThreeDigits(r % 1000));
    LapArithmetic(v);
  }

  /** 92.345 s is shown as "1:32.345". */
  lemma FormatLapExample()
    ensures FormatLapSeconds(Some(92345)) == "1:32.345"
  {
    LapTextShape(92345);
    assert NatToString(1) == "1";
    assert TwoDigits(32) == "32";
    assert ThreeDigits(345) == "345";
  }

  /** A sector time: `toFixed(3)` of a present value, the dash for null. */
  function SectorText(value: Option<int>): (text: string)
    ensures text == Dash <==> value.None?
  {
    match value
    case None => Dash
    case Some(v) => Fixed3(v)
  }

  /** A present sector time can be read back from its text. */
  lemma SectorTextRoundTrip(value: Option<int>)
    requires value.Some?
    ensures ParseFixed3(SectorText(value)) == value
  {
    Fixed3RoundTrip(value.value);
  }
}
