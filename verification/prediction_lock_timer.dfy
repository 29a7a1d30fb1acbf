/** The lock timer above the prediction board: the time left until a
    session starts, urgent in its last half hour, and locked for good once
    the start has passed. The clock is a parameter. */
module PredictionLockTimer {
  import opened Common
  import opened Countdown

  /** Thirty minutes. */
  const UrgentMs := 30 * 60 * 1000

  /** `HH:MM:SS` after `Nd ` when there are whole days. */
  function ClockText(t: TimeLeft): (text: string)
    ensures t.days > 0 ==> StartsWith(text, NatToString(t.days) + "d ")
    ensures t.days == 0 ==> |text| >= 8 && IsDigit(text[0]) && IsDigit(text[1])
    ensures t.days == 0 && t.hours < 100 ==> text[2] == ':'
    ensures t.hours < 100 && t.minutes < 100 && t.seconds < 100 ==>
      |text| >= 8
      && text[|text| - 6] == ':' && text[|text| - 3] == ':'
      && ParseNat(text[|text| - 8..|text| - 6]) == Some(t.hours)
      && ParseNat(text[|text| - 5..|text| - 3]) == Some(t.minutes)
      && ParseNat(text[|text| - 2..]) == Some(t.seconds)
  {
    var prefix := if t.days > 0 then NatToString(t.days) + "d " else "";
    var h := Pad2(t.hours);
    var m := Pad2(t.minutes);
    var s := Pad2(t.seconds);
    var text := prefix + h + ":" + m + ":" + s;
    ClockLayout(prefix, h, m, s);
    text
  }

  /** Where the parts sit in the clock text. */
  lemma ClockLayout(prefix: string, h: string, m: string, s: string)
    requires |h| >= 2 && |m| >= 2 && |s| >= 2
    ensures var text := prefix + h + ":" + m + ":" + s;
      text[..|prefix|] == prefix
      && (prefix == [] ==> text[0] == h[0] && text[1] == h[1] && (|h| == 2 ==> text[2] == ':'))
      && (|h| == 2 && |m| == 2 && |s| == 2 ==>
        text[|text| - 8..|text| - 6] == h && text[|text| - 6] == ':'
        && text[|text| - 5..|text| - 3] == m && text[|text| - 3] == ':'
        && text[|text| - 2..] == s)
  {
  }

  /** The timer's state. */
  class LockTimer {
    var timeLeft: TimeLeft
    var isLocked: bool
    var isUrgent: bool

    constructor ()
      ensures timeLeft == Zero && !isLocked && !isUrgent
    {
      timeLeft := Zero;
      isLocked := false;
      isUrgent := false;
    }

    /** `update`: once the start has passed, locked with zeros (the urgent
        flag keeps its value); before it, urgent iff less than half an hour
        is left, and the split wait. Nothing ever unlocks. */
    method Update(target: int, now: int)
      modifies this
      ensures target - now <= 0 ==> isLocked && timeLeft == Zero && isUrgent == old(isUrgent)
      ensures target - now > 0 ==>
        (isUrgent <==> target - now < UrgentMs)
        && timeLeft == Decompose(target - now) && isLocked == old(isLocked)
      ensures old(isLocked) ==> isLocked
    {
      var diff := target - now;
      if diff <= 0 {
        isLocked := true;
        timeLeft := Zero;
        return;
      }
      isUrgent := diff < UrgentMs;
      timeLeft := Decompose(diff);
    }
  }

  /** An urgent wait shows no days and under thirty minutes. */
  lemma UrgentShowsMinutes(diff: nat)
    requires 0 < diff < UrgentMs
    ensures Decompose(diff).days == 0 && Decompose(diff).hours == 0 && Decompose(diff).minutes < 30
  {
  }
}
