/** The timing page's state: the bootstrap it shows, the selected session
    key, the replay cursor and the play flag. It chooses between the replay
    and the bootstrap snapshot, polls at a mode-dependent interval, resets
    the cursor on every successful refresh, and shows a countdown to the next
    session. Fetches are not modelled: a refresh receives the payload, or
    `None` when the request failed. */
module TimingClient {
  import opened Common
  import opened F1Types
  import opened TimingFormat
  import opened Timing
  import opened Replay
  import opened TimelinePlayer

  // ---------------------------------------------------------------------------
  // Pure rules

  /** The poll interval: 7 s while live, 15 s otherwise. */
  function PollInterval(mode: Mode): (ms: int)
    ensures ms == 7000 <==> mode.Live?
    ensures ms == 15000 <==> mode.Replay?
  {
    if mode.Live? then 7000 else 15000
  }

  /** `selectedSession?.session_key || null`: a key of 0 counts as none. */
  function SessionKeyOf(session: Option<Session>): (key: Option<int>)
    ensures key.Some? <==> session.Some? && session.value.sessionKey != 0
    ensures key.Some? ==> key.value == session.value.sessionKey
  {
    if session.Some? && session.value.sessionKey != 0 then Some(session.value.sessionKey) else None
  }

  /** The query of a refresh: `?sessionKey=<key>` for a present non-zero
      key, empty otherwise. */
  function RefreshQuery(sessionKey: Option<int>): (query: string)
    ensures query == "" <==> sessionKey.None? || sessionKey.value == 0
    ensures query != "" ==> StartsWith(query, "?sessionKey=")
  {
    if sessionKey.Some? && sessionKey.value != 0 then "?sessionKey=" + IntToString(sessionKey.value) else ""
  }

  /** The highest lap number of the replay laps, never below 1. */
  function MaxLapOf(laps: seq<Lap>): (max: int)
    ensures max >= 1
    ensures forall i | 0 <= i < |laps| :: laps[i].lapNumber <= max
    ensures max == 1 || exists i | 0 <= i < |laps| :: laps[i].lapNumber == max
    decreases |laps|
  {
    if laps == [] then 1
    else
      var n := |laps| - 1;
      var max := MaxLapOf(laps[..n]);
      assert forall i | 0 <= i < n :: laps[i] == laps[..n][i];
      if laps[n].lapNumber > max then laps[n].lapNumber else max
  }

  /** The `maxLap` loop: 1 without replay data, else the highest lap
      number, at least 1. */
  method ComputeMaxLap(replayData: Option<ReplayData>) returns (max: int)
    ensures replayData.None? ==> max == 1
    ensures replayData.Some? ==> max == MaxLapOf(replayData.value.laps)
  {
    if replayData.None? {
      return 1;
    }
    var laps := replayData.value.laps;
    max := 1;
    var i := 0;
    while i < |laps|
      invariant 0 <= i <= |laps|
      invariant max == MaxLapOf(laps[..i])
    {
      if laps[i].lapNumber > max {
        max := laps[i].lapNumber;
      }
      assert laps[..i + 1][..i] == laps[..i];
      i := i + 1;
    }
    assert laps[..i] == laps;
  }

  /** The snapshot on screen: the replay snapshot in replay mode when there
      is one, otherwise the bootstrap snapshot. */
  function ShownSnapshot(mode: Mode, replaySnapshot: Option<Snapshot>, bootstrapSnapshot: Option<Snapshot>): (shown: Option<Snapshot>)
    ensures mode.Replay? && replaySnapshot.Some? ==> shown == replaySnapshot
    ensures !(mode.Replay? && replaySnapshot.Some?) ==> shown == bootstrapSnapshot
  {
    if mode.Replay? && replaySnapshot.Some? then replaySnapshot else bootstrapSnapshot
  }

  /** The qualifying view is used iff the selected session is a qualifying. */
  predicate UsesQualifyingView(selected: Option<Session>) {
    selected.Some? && selected.value.sessionType == "Qualifying"
  }

  /** Days, hours and minutes of a positive wait in milliseconds. */
  datatype Wait = Wait(days: nat, hours: nat, mins: nat)

  /** `useCountdown`'s arithmetic: whole days, hours within the day,
      minutes within the hour. */
  function SplitWait(diff: nat): (w: Wait)
    ensures w.hours < 24 && w.mins < 60
    ensures w.days * DayMs + w.hours * HourMs + w.mins * 60000 <= diff
    ensures diff < w.days * DayMs + w.hours * HourMs + w.mins * 60000 + 60000
  {
    var w := Wait(diff / DayMs, diff / HourMs % 24, diff / 60000 % 60);
    SplitWaitRecomposes(diff);
    w
  }

  lemma SplitWaitRecomposes(diff: nat)
    ensures var days := diff / DayMs;
      var hours := diff / HourMs % 24;
      var mins := diff / 60000 % 60;
      days * DayMs + hours * HourMs + mins * 60000 <= diff < days * DayMs + hours * HourMs + mins * 60000 + 60000
  {
    var minutes := diff / 60000;
    var hoursTotal := diff / HourMs;
    assert hoursTotal == minutes / 60;
    assert diff / DayMs == hoursTotal / 24;
    assert minutes * 60000 <= diff < minutes * 60000 + 60000;
    assert hoursTotal * 60 + minutes % 60 == minutes;
    assert (diff / DayMs) * 24 + hoursTotal % 24 == hoursTotal;
  }

  /** `useCountdown`: the dash without a target, "Starting now" once the
      target has passed, else `Xd Yh Zm`. */
  function CountdownText(target: Option<int>, now: int): (text: string)
    ensures target.None? ==> text == Dash
    ensures target.Some? && target.value - now <= 0 ==> text == "Starting now"
  {
    if target.None? then Dash
    else
      var diff := target.value - now;
      if diff <= 0 then "Starting now"
      else
        var w := SplitWait(diff);
        NatToString(w.days) + "d " + NatToString(w.hours) + "h " + NatToString(w.mins) + "m"
  }

  /** The target of the countdown: `nextSession?.date_start || null`, so a
      start of 0 counts as none. */
  function CountdownTarget(next: Option<Session>): (target: Option<int>)
    ensures target.Some? <==> next.Some? && next.value.dateStart != 0
    ensures target.Some? ==> target.value == next.value.dateStart
  {
    if next.Some? && next.value.dateStart != 0 then Some(next.value.dateStart) else None
  }

  /** A future target is shown as its whole days, the hours left within the
      day and the minutes left within the hour, which together fall short of
      the wait by less than a minute. */
  lemma CountdownParts(target: int, now: int)
    requires target - now > 0
    ensures var w := SplitWait(target - now);
      CountdownText(Some(target), now)
        == NatToString(w.days) + "d " + NatToString(w.hours) + "h " + NatToString(w.mins) + "m"
      && w.hours < 24 && w.mins < 60
      && now + w.days * DayMs + w.hours * HourMs + w.mins * 60000 <= target
      && target < now + w.days * DayMs + w.hours * HourMs + w.mins * 60000 + 60000
  {
  }

  // ---------------------------------------------------------------------------
  // The page state

  class TimingPage {
    var data: Bootstrap
    var selectedSessionKey: Option<int>
    var currentLap: int
    var isPlaying: bool
    var loading: bool

    constructor (initialData: Bootstrap)
      ensures data == initialData
      ensures selectedSessionKey == SessionKeyOf(initialData.selectedSession)
      ensures currentLap == 1 && !isPlaying && !loading
    {
      data := initialData;
      selectedSessionKey := SessionKeyOf(initialData.selectedSession);
      currentLap := 1;
      isPlaying := false;
      loading := false;
    }

    /** `maxLap` of the current data. */
    function MaxLap(): int
      reads this
    {
      if data.replayData.None? then 1 else MaxLapOf(data.replayData.value.laps)
    }

    /** `refresh`: a payload replaces the data, selects its session, puts the
        cursor back on lap 1 and stops playback; a failed request changes
        nothing but the loading flag. */
    method Refresh(payload: Option<Bootstrap>)
      modifies this
      ensures payload.Some? ==>
        data == payload.value && selectedSessionKey == SessionKeyOf(payload.value.selectedSession)
        && currentLap == 1 && !isPlaying
      ensures payload.None? ==>
        data == old(data) && selectedSessionKey == old(selectedSessionKey)
        && currentLap == old(currentLap) && isPlaying == old(isPlaying)
      ensures !loading
    {
      loading := true;
      if payload.Some? {
        data := payload.value;
        selectedSessionKey := SessionKeyOf(payload.value.selectedSession);
        currentLap := 1;
        isPlaying := false;
      }
      loading := false;
    }

    /** `handleSelectSession`: select the key, then refresh with it. */
    method SelectSession(sessionKey: int, payload: Option<Bootstrap>)
      modifies this
      ensures payload.Some? ==>
        data == payload.value && selectedSessionKey == SessionKeyOf(payload.value.selectedSession)
        && currentLap == 1 && !isPlaying
      ensures payload.None? ==>
        data == old(data) && selectedSessionKey == Some(sessionKey)
        && currentLap == old(currentLap) && isPlaying == old(isPlaying)
      ensures !loading
    {
      selectedSessionKey := Some(sessionKey);
      Refresh(payload);
    }

    /** The slider and the player set the cursor to the chosen lap. */
    method ChangeLap(lap: int)
      modifies this
      ensures currentLap == lap
      ensures data == old(data) && selectedSessionKey == old(selectedSessionKey)
      ensures isPlaying == old(isPlaying) && loading == old(loading)
    {
      currentLap := lap;
    }

    method TogglePlay()
      modifies this
      ensures isPlaying == !old(isPlaying)
      ensures data == old(data) && selectedSessionKey == old(selectedSessionKey)
      ensures currentLap == old(currentLap) && loading == old(loading)
    {
      isPlaying := !isPlaying;
    }

    /** One auto-play tick: while playing, the cursor advances one lap and
        wraps after the last. */
    method Tick()
      modifies this
      ensures isPlaying ==> currentLap == NextLap(old(currentLap), MaxLap())
      ensures !isPlaying ==> currentLap == old(currentLap)
      ensures data == old(data) && selectedSessionKey == old(selectedSessionKey)
      ensures isPlaying == old(isPlaying) && loading == old(loading)
    {
      if isPlaying {
        currentLap := NextLap(currentLap, MaxLap());
      }
    }

    /** The snapshot on screen, given what the replay engine makes of the
        current data at the cursor. */
    function Shown(): (shown: Option<Snapshot>)
      reads this
      ensures data.mode.Replay? && data.replayData.Some? ==>
        shown == Some(ReplaySnapshot(data.replayData.value, currentLap))
      ensures data.mode.Live? || data.replayData.None? ==> shown == data.snapshot
    {
      ShownSnapshot(data.mode, ReplayView(data.replayData, currentLap), data.snapshot)
    }
  }
}
