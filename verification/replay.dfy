/** The replay engine: the leaderboard as it stood at a chosen lap of a
    finished session. Every stream is cut to what was known at that lap
    (laps and pit stops by lap number, positions and race-control messages
    by a time cutoff two minutes after the newest lap start), the current
    stint is inferred from the pit count, and the rows are fused exactly as
    the live builder fuses them. */
module Replay {
  import opened Common
  import opened F1Types
  import opened Reducers
  import opened TimingFormat
  import opened Timing

  /** Two minutes past the newest lap start: roughly the end of that lap. */
  const LapWindow := 120000

  /** The laps with a lap number not past the cursor. */
  function LapsUpTo(laps: seq<Lap>, currentLap: int): seq<Lap> {
    Filter(laps, (l: Lap) => l.lapNumber <= currentLap)
  }

  /** The pit stops made on a lap not past the cursor. */
  function PitsUpTo(pits: seq<Pit>, currentLap: int): seq<Pit> {
    Filter(pits, (p: Pit) => p.lapNumber <= currentLap)
  }

  /** The newest start among laps, as the loop finds it: the first lap's
      start, raised by every later start that exceeds it. */
  function MaxStart(laps: seq<Lap>): (m: int)
    requires laps != []
    ensures forall i | 0 <= i < |laps| :: laps[i].dateStart <= m
    ensures exists i | 0 <= i < |laps| :: laps[i].dateStart == m
    decreases |laps|
  {
    if |laps| == 1 then laps[0].dateStart
    else
      var n := |laps| - 1;
      var m := MaxStart(laps[..n]);
      assert forall i | 0 <= i < n :: laps[i] == laps[..n][i];
      if laps[n].dateStart > m then laps[n].dateStart else m
  }

  /** `maxDate`: 0 when no lap is valid. */
  function LatestStart(validLaps: seq<Lap>): int {
    if validLaps == [] then 0 else MaxStart(validLaps)
  }

  /** `maxDate > 0 ? maxDate + 120000 : Infinity`; `None` is no bound. */
  function Cutoff(maxDate: int): Option<int> {
    if maxDate > 0 then Some(maxDate + LapWindow) else None
  }

  /** A date at or before the cutoff. */
  predicate Within(t: int, cutoff: Option<int>) {
    cutoff.None? || t <= cutoff.value
  }

  /** The cutoff at a lap cursor. */
  function ReplayCutoff(data: ReplayData, currentLap: int): Option<int> {
    Cutoff(LatestStart(LapsUpTo(data.laps, currentLap)))
  }

  function PositionsUpTo(positions: seq<Position>, cutoff: Option<int>): seq<Position> {
    Filter(positions, (p: Position) => Within(p.date, cutoff))
  }

  function MessagesUpTo(messages: seq<RaceControl>, cutoff: Option<int>): seq<RaceControl> {
    Filter(messages, (r: RaceControl) => Within(r.date, cutoff))
  }

  /** The loop that finds `maxDate`. */
  method LatestLapStart(validLaps: seq<Lap>) returns (maxDate: int)
    ensures maxDate == LatestStart(validLaps)
  {
    maxDate := if |validLaps| > 0 then validLaps[0].dateStart else 0;
    var i := 0;
    while i < |validLaps|
      invariant 0 <= i <= |validLaps|
      invariant i == 0 ==> maxDate == if |validLaps| > 0 then validLaps[0].dateStart else 0
      invariant i > 0 ==> maxDate == MaxStart(validLaps[..i])
    {
      var d := validLaps[i].dateStart;
      if d > maxDate {
        maxDate := d;
      }
      assert validLaps[..i + 1][..i] == validLaps[..i];
      i := i + 1;
    }
    assert i == 0 || validLaps[..i] == validLaps;
  }

  /** The newest lap start bounds every valid lap's start and is one of
      them; with no valid lap it is 0. */
  lemma {:induction false} LatestStartSpec(validLaps: seq<Lap>)
    ensures validLaps == [] ==> LatestStart(validLaps) == 0
    ensures forall l | l in validLaps :: l.dateStart <= LatestStart(validLaps)
    ensures validLaps != [] ==> exists l | l in validLaps :: l.dateStart == LatestStart(validLaps)
  {
    if validLaps != [] {
      var i :| 0 <= i < |validLaps| && validLaps[i].dateStart == MaxStart(validLaps);
      assert validLaps[i] in validLaps;
    }
  }

  // ---------------------------------------------------------------------------
  // The current stint

  /** `validPitStops.filter(p => p.driver_number === d).length`. */
  function PitCount(validPits: seq<Pit>, d: int): nat {
    |Filter(validPits, (p: Pit) => p.driverNumber == d)|
  }

  /** The driver's stints in order of stint number. */
  function OwnStints(stints: seq<Stint>, d: int): (own: seq<Stint>)
    ensures SortedBy(own, StintNumber)
    ensures forall s :: s in own <==> s in stints && s.driverNumber == d
  {
    OwnStintsMembers(stints, d);
    SortBy(Filter(stints, (s: Stint) => s.driverNumber == d), StintNumber)
  }

  lemma OwnStintsMembers(stints: seq<Stint>, d: int)
    ensures forall s ::
      (s in SortBy(Filter(stints, (s: Stint) => s.driverNumber == d), StintNumber) <==> s in stints && s.driverNumber == d)
  {
    var kept := Filter(stints, (s: Stint) => s.driverNumber == d);
    forall s ensures s in SortBy(kept, StintNumber) <==> s in kept {
      PermutationMembers(SortBy(kept, StintNumber), kept, s);
    }
  }

  /** `find(s => s.stint_number === wanted) || last`. */
  function PickStint(own: seq<Stint>, wanted: int): Option<Stint> {
    var found := FindFirst(own, (s: Stint) => s.stintNumber == wanted);
    if found.Some? then found else if own != [] then Some(own[|own| - 1]) else None
  }

  /** The driver's stint numbered one past the pit count, else the driver's
      last stint by number; none for a driver without stints. */
  function ActiveStint(stints: seq<Stint>, validPits: seq<Pit>, d: int): Option<Stint> {
    PickStint(OwnStints(stints, d), PitCount(validPits, d) + 1)
  }

  /** Driver `d` has a stint numbered `k`. */
  ghost predicate HasStintNumbered(stints: seq<Stint>, d: int, k: int) {
    exists s | s in stints && s.driverNumber == d :: s.stintNumber == k
  }

  /** The pit count is the number of the driver's pit records. */
  lemma {:induction false} PitCountIsCount(validPits: seq<Pit>, d: int)
    ensures PitCount(validPits, d) == CountOf(validPits, PitDriver, d)
    decreases |validPits|
  {
    if validPits != [] {
      var prefix := validPits[..|validPits| - 1];
      PitCountIsCount(prefix, d);
    }
  }

  /** Picking from a driver's stints sorted by number. */
  lemma PickStintSpec(own: seq<Stint>, wanted: int, stints: seq<Stint>, d: int)
    requires SortedBy(own, StintNumber)
    requires forall s :: s in own <==> s in stints && s.driverNumber == d
    ensures var a := PickStint(own, wanted);
      (a.None? <==> own == [])
      && (a.Some? ==> a.value in stints && a.value.driverNumber == d)
      && (HasStintNumbered(stints, d, wanted) ==> a.Some? && a.value.stintNumber == wanted)
      && (a.Some? && !HasStintNumbered(stints, d, wanted) ==>
            forall s | s in stints && s.driverNumber == d :: s.stintNumber <= a.value.stintNumber)
  {
    if HasStintNumbered(stints, d, wanted) {
      var s :| s in stints && s.driverNumber == d && s.stintNumber == wanted;
      assert s in own;
    }
    if own != [] {
      assert own[|own| - 1] in own;
      forall s | s in stints && s.driverNumber == d ensures s.stintNumber <= own[|own| - 1].stintNumber {
        var k :| 0 <= k < |own| && own[k] == s;
        assert k == |own| - 1 || StintNumber(own[k]) <= StintNumber(own[|own| - 1]);
      }
    }
  }

  /** The active stint exists iff the driver has stints. It is the driver's
      stint numbered one past the pit count when there is one, and otherwise
      the driver's highest-numbered stint. */
  lemma {:induction false} ActiveStintSpec(stints: seq<Stint>, validPits: seq<Pit>, d: int)
    ensures var a := ActiveStint(stints, validPits, d);
      (a.None? <==> !HasDriver(stints, StintDriver, d))
      && (a.Some? ==> a.value in stints && a.value.driverNumber == d)
      && (HasStintNumbered(stints, d, PitCount(validPits, d) + 1) ==>
            a.Some? && a.value.stintNumber == PitCount(validPits, d) + 1)
      && (a.Some? && !HasStintNumbered(stints, d, PitCount(validPits, d) + 1) ==>
            forall s | s in stints && s.driverNumber == d :: s.stintNumber <= a.value.stintNumber)
  {
    var own := OwnStints(stints, d);
    var wanted := PitCount(validPits, d) + 1;
    assert ActiveStint(stints, validPits, d) == PickStint(own, wanted);
    PickStintSpec(own, wanted, stints, d);
    OwnStintsNonEmpty(stints, d);
  }

  /** A driver has stints of their own iff some stint is theirs. */
  lemma OwnStintsNonEmpty(stints: seq<Stint>, d: int)
    ensures OwnStints(stints, d) != [] <==> HasDriver(stints, StintDriver, d)
  {
    var own := OwnStints(stints, d);
    if HasDriver(stints, StintDriver, d) {
      var i :| 0 <= i < |stints| && StintDriver(stints[i]) == d;
      assert stints[i] in own;
    }
    if own != [] {
      assert own[0] in own;
      var i :| 0 <= i < |stints| && stints[i] == own[0];
      assert StintDriver(stints[i]) == d;
    }
  }

  /** `currentStintByDriver` after the loop over the drivers: each driver
      with an active stint is mapped to it, later drivers overriding. */
  function StintFold(drivers: seq<Driver>, active: int -> Option<Stint>): map<int, Stint>
    decreases |drivers|
  {
    if drivers == [] then map[]
    else
      var current := StintFold(drivers[..|drivers| - 1], active);
      var d := drivers[|drivers| - 1].driverNumber;
      if active(d).Some? then current[d := active(d).value] else current
  }

  /** One more driver in the fold. */
  lemma StintFoldStep(drivers: seq<Driver>, i: int, active: int -> Option<Stint>)
    requires 0 <= i < |drivers|
    ensures var d := drivers[i].driverNumber;
      StintFold(drivers[..i + 1], active)
      == if active(d).Some? then StintFold(drivers[..i], active)[d := active(d).value] else StintFold(drivers[..i], active)
  {
    assert drivers[..i + 1][..i] == drivers[..i];
  }

  /** The loop that infers each driver's current stint. */
  method CurrentStints(drivers: seq<Driver>, stints: seq<Stint>, validPits: seq<Pit>)
    returns (current: map<int, Stint>)
    ensures current == StintFold(drivers, d => ActiveStint(stints, validPits, d))
  {
    current := map[];
    var i := 0;
    while i < |drivers|
      invariant 0 <= i <= |drivers|
      invariant current == StintFold(drivers[..i], d => ActiveStint(stints, validPits, d))
    {
      var d := drivers[i].driverNumber;
      var activeStint := ActiveStint(stints, validPits, d);
      StintFoldStep(drivers, i, d => ActiveStint(stints, validPits, d));
      if activeStint.Some? {
        current := current[d := activeStint.value];
      }
      i := i + 1;
    }
    assert drivers[..|drivers|] == drivers;
  }

  /** The map holds exactly the listed drivers that have an active stint,
      each with that stint. */
  lemma {:induction false} StintFoldSpec(drivers: seq<Driver>, active: int -> Option<Stint>)
    ensures forall d :: d in StintFold(drivers, active) <==> IsListed(drivers, d) && active(d).Some?
    ensures forall d | d in StintFold(drivers, active) :: StintFold(drivers, active)[d] == active(d).value
    decreases |drivers|
  {
    if drivers != [] {
      var n := |drivers| - 1;
      var prefix := drivers[..n];
      StintFoldSpec(prefix, active);
      forall d ensures IsListed(drivers, d) <==> IsListed(prefix, d) || drivers[n].driverNumber == d {
        if IsListed(prefix, d) {
          var x :| x in prefix && x.driverNumber == d;
          assert x in drivers;
        }
        if IsListed(drivers, d) && drivers[n].driverNumber != d {
          var x :| x in drivers && x.driverNumber == d;
          var k :| 0 <= k < |drivers| && drivers[k] == x;
          assert prefix[k] == x;
        }
      }
    }
  }

  // ---------------------------------------------------------------------------
  // The replay snapshot

  /** The lookups of the replay builder at a lap cursor. */
  function ReplayStreams(data: ReplayData, currentLap: int): Streams {
    var validLaps := LapsUpTo(data.laps, currentLap);
    var validPits := PitsUpTo(data.pitStops, currentLap);
    var latest := LatestFold(PositionsUpTo(data.positions, ReplayCutoff(data, currentLap)), PositionDriver, PositionDate);
    Streams(
      LatestFold(validLaps, LapDriver, LapNumber),
      StintFold(data.drivers, d => ActiveStint(data.stints, validPits, d)),
      CountFold(validPits, PitDriver),
      PositionsOf(latest))
  }

  /** The position of each driver's newest record. */
  function PositionsOf(latest: map<int, Position>): (shown: map<int, int>)
    ensures shown.Keys == latest.Keys
    ensures forall d | d in shown :: shown[d] == latest[d].position
  {
    map d | d in latest :: latest[d].position
  }

  function ReplaySnapshot(data: ReplayData, currentLap: int): Snapshot {
    Snapshot(
      FusedRows(data.drivers, ReplayStreams(data, currentLap)),
      RecentFirst(MessagesUpTo(data.raceControl, ReplayCutoff(data, currentLap))),
      "Race")
  }

  /** What the hook returns: nothing without replay data, otherwise a race
      snapshot with at most eight messages. */
  function ReplayView(replayData: Option<ReplayData>, currentLap: int): (view: Option<Snapshot>)
    ensures view.None? <==> replayData.None?
    ensures view.Some? ==> view.value.sessionType == "Race" && |view.value.raceControl| <= 8
  {
    if replayData.None? then None
    else
      var data := replayData.value;
      RecentFirstSpec(MessagesUpTo(data.raceControl, ReplayCutoff(data, currentLap)));
      Some(ReplaySnapshot(data, currentLap))
  }

  /** `useReplayEngine`: the window, the reductions, the stint inference and
      the fusion. */
  method UseReplayEngine(replayData: Option<ReplayData>, currentLap: int) returns (snapshot: Option<Snapshot>)
    ensures snapshot == ReplayView(replayData, currentLap)
  {
    if replayData.None? {
      return None;
    }
    var data := replayData.value;
    var validLaps := LapsUpTo(data.laps, currentLap);
    var maxDate := LatestLapStart(validLaps);
    var timeCutoff := Cutoff(maxDate);
    var validPositions := PositionsUpTo(data.positions, timeCutoff);
    var validPitStops := PitsUpTo(data.pitStops, currentLap);
    var validRC := MessagesUpTo(data.raceControl, timeCutoff);

    var lapByDriver := LatestByDriver(validLaps, LapDriver, LapNumber);
    var currentStintByDriver := CurrentStints(data.drivers, data.stints, validPitStops);
    var pitStopsByDriver := CountByDriver(validPitStops, PitDriver);
    var positionsByDriver := LatestByDriver(validPositions, PositionDriver, PositionDate);
    var shown := PositionsOf(positionsByDriver);

    var streams := Streams(lapByDriver, currentStintByDriver, pitStopsByDriver, shown);
    snapshot := Some(Snapshot(FusedRows(data.drivers, streams), RecentFirst(validRC), "Race"));
  }

  // ---------------------------------------------------------------------------
  // Properties of the window

  /** The cutoff is unbounded iff no valid lap started after time 0;
      otherwise it is two minutes after the newest valid lap start. Valid laps
      are exactly the laps up to the cursor, and positions and messages are
      kept exactly when they fall within the cutoff. */
  lemma {:induction false} ReplayCutoffSpec(data: ReplayData, currentLap: int)
    ensures var valid := LapsUpTo(data.laps, currentLap);
      var cutoff := ReplayCutoff(data, currentLap);
      (cutoff.None? <==> forall l | l in valid :: l.dateStart <= 0)
      && (cutoff.Some? ==> forall l | l in valid :: l.dateStart + LapWindow <= cutoff.value)
      && (cutoff.Some? ==> exists l | l in valid :: l.dateStart + LapWindow == cutoff.value)
      && (forall l :: l in valid <==> l in data.laps && l.lapNumber <= currentLap)
      && (forall p :: p in PositionsUpTo(data.positions, cutoff) <==> p in data.positions && Within(p.date, cutoff))
      && (forall r :: r in MessagesUpTo(data.raceControl, cutoff) <==> r in data.raceControl && Within(r.date, cutoff))
  {
    var valid := LapsUpTo(data.laps, currentLap);
    LatestStartSpec(valid);
    if valid != [] && LatestStart(valid) <= 0 {
      forall l | l in valid ensures l.dateStart <= 0 { }
    }
  }

  /** Moving the cursor forward from a lap that has a cutoff never lowers it. */
  lemma {:induction false} CutoffGrows(data: ReplayData, n1: int, n2: int)
    requires n1 <= n2
    requires ReplayCutoff(data, n1).Some?
    ensures ReplayCutoff(data, n2).Some?
    ensures ReplayCutoff(data, n1).value <= ReplayCutoff(data, n2).value
  {
    var valid1 := LapsUpTo(data.laps, n1);
    var valid2 := LapsUpTo(data.laps, n2);
    LatestStartSpec(valid1);
    LatestStartSpec(valid2);
    var l :| l in valid1 && l.dateStart == LatestStart(valid1);
    assert l in valid2;
  }

  /** From a cursor with a cutoff to a later one, every driver with a
      position keeps one. */
  lemma {:induction false} PositionsGrow(data: ReplayData, n1: int, n2: int)
    requires n1 <= n2
    requires ReplayCutoff(data, n1).Some?
    ensures forall d | d in ReplayStreams(data, n1).positions :: d in ReplayStreams(data, n2).positions
  {
    var valid1 := PositionsUpTo(data.positions, ReplayCutoff(data, n1));
    var valid2 := PositionsUpTo(data.positions, ReplayCutoff(data, n2));
    CutoffGrows(data, n1, n2);
    LatestFoldKeys(valid1, PositionDriver, PositionDate);
    LatestFoldKeys(valid2, PositionDriver, PositionDate);
    forall d | HasDriver(valid1, PositionDriver, d) ensures HasDriver(valid2, PositionDriver, d) {
      var k :| 0 <= k < |valid1| && PositionDriver(valid1[k]) == d;
      assert valid1[k] in valid2;
      var k2 :| 0 <= k2 < |valid2| && valid2[k2] == valid1[k];
    }
  }

  /** More drivers with a position never lose a row. */
  lemma {:induction false} RowsGrow(drivers: seq<Driver>, s1: Streams, s2: Streams)
    requires forall d | d in s1.positions :: d in s2.positions
    ensures forall n | HasRowFor(FusedRows(drivers, s1), n) :: HasRowFor(FusedRows(drivers, s2), n)
  {
    var rows1 := FusedRows(drivers, s1);
    FusedRowsMembership(drivers, s1);
    FusedRowsMembership(drivers, s2);
    forall n | HasRowFor(rows1, n) ensures HasRowFor(FusedRows(drivers, s2), n) {
      var i :| 0 <= i < |rows1| && rows1[i].driverNumber == n;
      var d := RowSource(rows1[i], drivers, s1);
      assert HasPosition(s2, d);
    }
  }

  /** Roster growth: once the cursor has a cutoff, every driver with a row
      keeps a row at every later cursor. */
  lemma {:induction false} RosterGrows(data: ReplayData, n1: int, n2: int, s1: Streams, s2: Streams)
    requires n1 <= n2
    requires ReplayCutoff(data, n1).Some?
    requires s1 == ReplayStreams(data, n1) && s2 == ReplayStreams(data, n2)
    ensures forall n | HasRowFor(FusedRows(data.drivers, s1), n) :: HasRowFor(FusedRows(data.drivers, s2), n)
  {
    PositionsGrow(data, n1, n2);
    RowsGrow(data.drivers, s1, s2);
  }

  /** The replay race-control list: at most eight messages, newest first,
      each one sent no later than the cutoff. */
  lemma {:induction false} ReplayRaceControl(data: ReplayData, currentLap: int)
    ensures var cutoff := ReplayCutoff(data, currentLap);
      var shown := ReplaySnapshot(data, currentLap).raceControl;
      var kept := MessagesUpTo(data.raceControl, cutoff);
      |shown| <= 8
      && (forall i | 0 <= i < |shown| :: shown[i] == kept[|kept| - 1 - i])
      && (forall r | r in shown :: r in data.raceControl && Within(r.date, cutoff))
  {
    var kept := MessagesUpTo(data.raceControl, ReplayCutoff(data, currentLap));
    assert ReplaySnapshot(data, currentLap).raceControl == RecentFirst(kept);
    RecentFirstSpec(kept);
    RecentFirstKept(kept);
  }

  /** The shown messages are among the given ones. */
  lemma RecentFirstKept(kept: seq<RaceControl>)
    ensures forall r | r in RecentFirst(kept) :: r in kept
  {
    RecentFirstSpec(kept);
    forall r | r in RecentFirst(kept) ensures r in kept {
      var i :| 0 <= i < |RecentFirst(kept)| && RecentFirst(kept)[i] == r;
      assert r == kept[|kept| - 1 - i];
    }
  }

  // ---------------------------------------------------------------------------
  // Properties of the rows

  /** The tyre a replay row shows for an active stint, or the dash. */
  function StintTyre(active: Option<Stint>): string {
    if active.Some? then OrStr(active.value.compound, Dash) else Dash
  }

  /** The position a row shows is that of the driver's latest-dated position
      record within the window. */
  ghost predicate PositionDefault(row: TimingRow, valid: seq<Position>) {
    exists p | p in valid && p.driverNumber == row.driverNumber ::
      row.position == p.position
      && forall q | q in valid && q.driverNumber == row.driverNumber :: q.date <= p.date
  }

  /** What a replay row shows at a cursor: the pit count of the pit stops up
      to the cursor, the tyre of the active stint, the lap columns of the
      newest lap up to the cursor, and the newest position in the window. */
  ghost predicate ReplayDefaults(row: TimingRow, data: ReplayData, currentLap: int) {
    var validPits := PitsUpTo(data.pitStops, currentLap);
    row.pitStops == CountOf(validPits, PitDriver, row.driverNumber)
    && row.tyre == StintTyre(ActiveStint(data.stints, validPits, row.driverNumber))
    && LapDefault(row, row.driverNumber, LapsUpTo(data.laps, currentLap))
    && PositionDefault(row, PositionsUpTo(data.positions, ReplayCutoff(data, currentLap)))
  }

  lemma {:induction false} ReplayTyre(data: ReplayData, currentLap: int, driver: Driver)
    requires driver in data.drivers
    ensures TyreOf(ReplayStreams(data, currentLap), driver.driverNumber)
      == StintTyre(ActiveStint(data.stints, PitsUpTo(data.pitStops, currentLap), driver.driverNumber))
  {
    var validPits := PitsUpTo(data.pitStops, currentLap);
    StintFoldSpec(data.drivers, d => ActiveStint(data.stints, validPits, d));
  }

  lemma {:induction false} ReplayPosition(valid: seq<Position>, streams: Streams, driver: Driver, interval: string, gap: string)
    requires streams.positions == PositionsOf(LatestFold(valid, PositionDriver, PositionDate))
    requires HasPosition(streams, driver)
    ensures PositionDefault(Finish(BaseRowFor(driver, streams), interval, gap), valid)
  {
    var d := driver.driverNumber;
    var latest := LatestFold(valid, PositionDriver, PositionDate);
    LatestFoldKeys(valid, PositionDriver, PositionDate);
    LatestFoldMaximal(valid, PositionDriver, PositionDate);
    var p := latest[d];
    forall q | q in valid && q.driverNumber == d ensures q.date <= p.date {
      var j :| 0 <= j < |valid| && valid[j] == q;
      assert PositionDriver(valid[j]) == d;
    }
  }

  /** A listed driver's replay row with a position shows the defaults above. */
  lemma {:induction false} ReplayBaseRowDefaults(data: ReplayData, currentLap: int, driver: Driver, interval: string, gap: string)
    requires driver in data.drivers
    requires HasPosition(ReplayStreams(data, currentLap), driver)
    ensures ReplayDefaults(Finish(BaseRowFor(driver, ReplayStreams(data, currentLap)), interval, gap), data, currentLap)
  {
    var streams := ReplayStreams(data, currentLap);
    CountFoldCounts(PitsUpTo(data.pitStops, currentLap), PitDriver);
    ReplayTyre(data, currentLap, driver);
    LapOfDefault(LapsUpTo(data.laps, currentLap), driver, streams, interval, gap);
    ReplayPosition(PositionsUpTo(data.positions, ReplayCutoff(data, currentLap)), streams, driver, interval, gap);
  }

  /** Every replay row shows the defaults above. */
  lemma {:induction false} ReplayRowDefaults(data: ReplayData, currentLap: int, streams: Streams)
    requires streams == ReplayStreams(data, currentLap)
    ensures var rows := FusedRows(data.drivers, streams);
      forall i | 0 <= i < |rows| :: ReplayDefaults(rows[i], data, currentLap)
  {
    var rows := FusedRows(data.drivers, streams);
    FusedRowsMembership(data.drivers, streams);
    forall i | 0 <= i < |rows| ensures ReplayDefaults(rows[i], data, currentLap) {
      var d := RowSource(rows[i], data.drivers, streams);
      ReplayBaseRowDefaults(data, currentLap, d, rows[i].interval, rows[i].gapToLeader);
    }
  }

  /** A driver has a replay position iff it has a position record in the
      window. */
  lemma ReplayPositionKeys(data: ReplayData, currentLap: int, streams: Streams)
    requires streams == ReplayStreams(data, currentLap)
    ensures forall d :: d in streams.positions <==>
      HasDriver(PositionsUpTo(data.positions, ReplayCutoff(data, currentLap)), PositionDriver, d)
  {
    LatestFoldKeys(PositionsUpTo(data.positions, ReplayCutoff(data, currentLap)), PositionDriver, PositionDate);
  }

  /** Rows of fused streams whose positions are those of a stream of
      position records exist exactly for the listed drivers with a record. */
  lemma {:induction false} RowsOfRecords(drivers: seq<Driver>, streams: Streams, valid: seq<Position>)
    requires forall d :: d in streams.positions <==> HasDriver(valid, PositionDriver, d)
    ensures var rows := FusedRows(drivers, streams);
      (forall i | 0 <= i < |rows| ::
            IsListed(drivers, rows[i].driverNumber) && HasDriver(valid, PositionDriver, rows[i].driverNumber))
      && (forall d | d in drivers && HasDriver(valid, PositionDriver, d.driverNumber) ::
            HasRowFor(rows, d.driverNumber))
  {
    var rows := FusedRows(drivers, streams);
    FusedRowsMembership(drivers, streams);
    forall i | 0 <= i < |rows|
      ensures IsListed(drivers, rows[i].driverNumber) && HasDriver(valid, PositionDriver, rows[i].driverNumber)
    {
      var d := RowSource(rows[i], drivers, streams);
      assert d.driverNumber == rows[i].driverNumber;
    }
    forall d | d in drivers && HasDriver(valid, PositionDriver, d.driverNumber)
      ensures HasRowFor(rows, d.driverNumber)
    {
      assert HasPosition(streams, d);
    }
  }

  /** Replay rows are ordered by position and exist exactly for the listed
      drivers with a position record in the window. */
  lemma {:induction false} ReplayRowMembership(data: ReplayData, currentLap: int, streams: Streams)
    requires streams == ReplayStreams(data, currentLap)
    ensures var rows := FusedRows(data.drivers, streams);
      var valid := PositionsUpTo(data.positions, ReplayCutoff(data, currentLap));
      (forall i, j | 0 <= i < j < |rows| :: rows[i].position <= rows[j].position)
      && (forall i | 0 <= i < |rows| ::
            IsListed(data.drivers, rows[i].driverNumber) && HasDriver(valid, PositionDriver, rows[i].driverNumber))
      && (forall d | d in data.drivers && HasDriver(valid, PositionDriver, d.driverNumber) ::
            HasRowFor(rows, d.driverNumber))
  {
    FusedRowsSorted(data.drivers, streams);
    ReplayPositionKeys(data, currentLap, streams);
    RowsOfRecords(data.drivers, streams, PositionsUpTo(data.positions, ReplayCutoff(data, currentLap)));
  }

  /** The replay rows are fused like the live ones: the first leads and the
      others carry duration differences, a missing duration counting as 0. */
  lemma {:induction false} ReplayGaps(data: ReplayData, currentLap: int, streams: Streams)
    requires streams == ReplayStreams(data, currentLap)
    ensures GapsFollowDurations(FusedRows(data.drivers, streams), streams)
  {
    FusedRowsGaps(data.drivers, streams);
  }
}
