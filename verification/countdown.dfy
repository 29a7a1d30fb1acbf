/** The home page countdown: the time left until a target, split into days,
    hours, minutes and seconds, each shown padded to two digits; once the
    target has passed the countdown is live and shows zeros. The target's
    date and time of day are integer milliseconds and the clock is a
    parameter. The split is shared with the prediction lock timer. */
module Countdown {
  import opened Common
  import opened F1Types

  datatype TimeLeft = TimeLeft(days: nat, hours: nat, minutes: nat, seconds: nat)

  const Zero := TimeLeft(0, 0, 0, 0)

  /** The milliseconds the four parts stand for. */
  function Recompose(t: TimeLeft): int {
    t.days * DayMs + t.hours * HourMs + t.minutes * 60000 + t.seconds * 1000
  }

  /** `Math.floor` of the quotients and remainders by a day, an hour, a
      minute and a second, for a positive wait. */
  function Decompose(diff: nat): (t: TimeLeft)
    ensures t.days == diff / DayMs
    ensures t.hours < 24 && t.minutes < 60 && t.seconds < 60
    ensures diff - 1000 < Recompose(t) <= diff
  {
    DecomposeRecomposes(diff);
    TimeLeft(diff / DayMs, diff % DayMs / HourMs, diff % HourMs / 60000, diff % 60000 / 1000)
  }

  lemma DecomposeRecomposes(diff: nat)
    ensures diff - 1000 < (diff / DayMs) * DayMs + (diff % DayMs / HourMs) * HourMs
      + (diff % HourMs / 60000) * 60000 + (diff % 60000 / 1000) * 1000 <= diff
  {
    var r1 := diff % DayMs;
    var r2 := diff % HourMs;
    var r3 := diff % 60000;
    assert diff == (diff / DayMs) * DayMs + r1;
    assert r1 == (r1 / HourMs) * HourMs + r2;
    assert r2 == (r2 / 60000) * 60000 + r3;
    assert r3 == (r3 / 1000) * 1000 + diff % 1000;
  }

  /** `String(n).padStart(2, '0')`. */
  function Pad2(n: nat): (s: string)
    ensures |s| >= 2 && AllDigits(s)
    ensures n < 100 ==> |s| == 2
    ensures ParseNat(s) == Some(n)
  {
    var digits := NatToString(n);
    DigitsValueOfNatToString(n);
    if n < 10 then
      var s := PadStart(digits, 2, '0');
      assert s == ['0', DigitChar(n)];
      LeadingZero(n);
      s
    else
      assert |digits| >= 2 by {
        assert digits == NatToString(n / 10) + [DigitChar(n % 10)];
      }
      PadStart(digits, 2, '0')
  }

  /** A leading zero does not change a one-digit number. */
  lemma LeadingZero(n: nat)
    requires n < 10
    ensures ParseNat(['0', DigitChar(n)]) == Some(n)
  {
    var s := ['0', DigitChar(n)];
    assert s[..1] == ['0'] && s[..1][..0] == [];
    assert DigitsValue(s[..1]) == 0;
  }

  /** `${targetDate}T${targetTime}`, or 14:00:00Z on the target day when no
      time is given. */
  function CountdownTarget(date: int, time: Option<int>): (target: int)
    ensures time.None? ==> target == date + DefaultRaceTime
    ensures time.Some? ==> target == date + time.value
  {
    date + time.GetOr(DefaultRaceTime)
  }

  /** The four blocks, each at least two digits and reading back as its
      part. */
  function BlockTexts(t: TimeLeft): (texts: seq<string>)
    ensures |texts| == 4
    ensures forall i | 0 <= i < 4 :: |texts[i]| >= 2
    ensures ParseNat(texts[0]) == Some(t.days) && ParseNat(texts[1]) == Some(t.hours)
    ensures ParseNat(texts[2]) == Some(t.minutes) && ParseNat(texts[3]) == Some(t.seconds)
  {
    [Pad2(t.days), Pad2(t.hours), Pad2(t.minutes), Pad2(t.seconds)]
  }

  /** The countdown's state. */
  class HomeCountdown {
    var timeLeft: TimeLeft
    var isLive: bool

    constructor ()
      ensures timeLeft == Zero && !isLive
    {
      timeLeft := Zero;
      isLive := false;
    }

    /** `update`: live with zeros once the target has passed, otherwise not
        live with the split wait. */
    method Update(target: int, now: int)
      modifies this
      ensures target - now <= 0 ==> isLive && timeLeft == Zero
      ensures target - now > 0 ==> !isLive && timeLeft == Decompose(target - now)
    {
      var diff := target - now;
      if diff <= 0 {
        isLive := true;
        timeLeft := Zero;
        return;
      }
      isLive := false;
      timeLeft := Decompose(diff);
    }
  }

  /** A wait that is not over shows parts that add up to it, short by less
      than a second; a wait that is over shows zeros. */
  lemma CountdownShowsWait(target: int, now: int)
    ensures target - now > 0 ==> target - 1000 < now + Recompose(Decompose(target - now)) <= target
    ensures Recompose(Zero) == 0
  {
  }
}
