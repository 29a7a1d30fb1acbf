/** The replay player: each tick of auto-play moves the lap cursor one lap
    forward and wraps from the last lap back to the first; the slider sets
    the cursor to the chosen lap. */
module TimelinePlayer {

  /** The lap the next auto-play tick moves to. */
  function NextLap(currentLap: int, maxLap: int): (next: int)
    ensures currentLap >= maxLap ==> next == 1
    ensures currentLap < maxLap ==> next == currentLap + 1
  {
    if currentLap >= maxLap then 1 else currentLap + 1
  }

  /** The lap after `k` ticks. */
  function AdvanceTimes(currentLap: int, maxLap: int, k: nat): int {
    if k == 0 then currentLap else NextLap(AdvanceTimes(currentLap, maxLap, k - 1), maxLap)
  }

  /** A tick from a lap within `[1, maxLap]` stays within it. */
  lemma NextLapInRange(currentLap: int, maxLap: int)
    requires 1 <= currentLap <= maxLap
    ensures 1 <= NextLap(currentLap, maxLap) <= maxLap
  {
  }

  /** Any number of ticks from a lap within `[1, maxLap]` stays within it. */
  lemma {:induction false} AdvanceInRange(currentLap: int, maxLap: int, k: nat)
    requires 1 <= currentLap <= maxLap
    ensures 1 <= AdvanceTimes(currentLap, maxLap, k) <= maxLap
  {
    if k > 0 {
      AdvanceInRange(currentLap, maxLap, k - 1);
      NextLapInRange(AdvanceTimes(currentLap, maxLap, k - 1), maxLap);
    }
  }

  /** From lap 1 the player visits 1, 2, …, `maxLap` in order. */
  lemma {:induction false} AdvanceFromFirst(maxLap: int, k: nat)
    requires k < maxLap
    ensures AdvanceTimes(1, maxLap, k) == 1 + k
  {
    if k > 0 {
      AdvanceFromFirst(maxLap, k - 1);
    }
  }

  /** After `maxLap` ticks from lap 1 the player is back at lap 1. */
  lemma AdvanceWraps(maxLap: int)
    requires maxLap >= 1
    ensures AdvanceTimes(1, maxLap, maxLap as nat) == 1
  {
    AdvanceFromFirst(maxLap, (maxLap - 1) as nat);
  }
}
