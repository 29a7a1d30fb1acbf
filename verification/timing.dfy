/** The live timing engine: it fuses the per-driver streams of one session
    (drivers, latest positions, laps, stints, pit stops, race-control
    messages) into one ranked leaderboard with intervals and gaps, and picks
    the session and mode the timing page opens with. The stream fetches are
    not modelled: their results are parameters, a failed fetch being an
    empty stream. */
module Timing {
  import opened Common
  import opened F1Types
  import opened Reducers
  import opened TimingFormat
  import OpenF1

  datatype Mode = Live | Replay

  /** One line of the timing tower. */
  datatype TimingRow = TimingRow(
    driverNumber: int,
    code: string,
    broadcastName: Option<string>,
    teamName: string,
    teamColor: string,
    position: int,
    interval: string,
    gapToLeader: string,
    lastLap: string,
    sector1: string,
    sector2: string,
    sector3: string,
    pitStops: nat,
    tyre: string)

  /** A row before intervals and gaps are known; it still carries the raw
      lap duration the gaps are computed from. */
  datatype BaseRow = BaseRow(
    driverNumber: int,
    code: string,
    broadcastName: Option<string>,
    teamName: string,
    teamColor: string,
    position: int,
    lapDuration: Option<int>,
    lastLap: string,
    sector1: string,
    sector2: string,
    sector3: string,
    pitStops: nat,
    tyre: string)

  /** The leaderboard without its `updatedAt` stamp. */
  datatype Snapshot = Snapshot(rows: seq<TimingRow>, raceControl: seq<RaceControl>, sessionType: string)

  /** The raw streams of a session, kept for the replay engine. */
  datatype ReplayData = ReplayData(
    drivers: seq<Driver>,
    laps: seq<Lap>,
    positions: seq<Position>,
    stints: seq<Stint>,
    pitStops: seq<Pit>,
    raceControl: seq<RaceControl>)

  /** The per-driver lookups the rows are built from: newest lap, current
      stint, pit-stop tally, and the position to show. */
  datatype Streams = Streams(
    laps: map<int, Lap>,
    stints: map<int, Stint>,
    pits: map<int, nat>,
    positions: map<int, int>)

  // ---------------------------------------------------------------------------
  // Row construction, shared by the live and the replay builders

  /** `name_acronym || broadcast_name?.slice(0, 3) || String(driver_number)`. */
  function DriverCode(d: Driver): (code: string)
    ensures code != ""
    ensures d.nameAcronym != "" ==> code == d.nameAcronym
    ensures d.nameAcronym == "" && Truthy(d.broadcastName) ==> StartsWith(d.broadcastName.value, code) && |code| <= 3
    ensures d.nameAcronym == "" && !Truthy(d.broadcastName) ==> code == IntToString(d.driverNumber)
  {
    if d.nameAcronym != "" then d.nameAcronym
    else if Truthy(d.broadcastName) then
      var name := d.broadcastName.value;
      if |name| <= 3 then name else name[..3]
    else IntToString(d.driverNumber)
  }

  /** `team_colour ? '#' + team_colour : '#888888'`. */
  function TeamColorOf(colour: string): (color: string)
    ensures |color| >= 1 && color[0] == '#'
    ensures colour != "" ==> color[1..] == colour
    ensures colour == "" ==> color == "#888888"
  {
    if colour != "" then "#" + colour else "#888888"
  }

  /** The newest lap kept for a driver, if any. */
  function LapOf(streams: Streams, d: int): Option<Lap> {
    if d in streams.laps then Some(streams.laps[d]) else None
  }

  /** `latestLap?.lap_duration ?? null`. */
  function LapDurationOf(streams: Streams, d: int): Option<int> {
    if d in streams.laps then streams.laps[d].lapDuration else None
  }

  /** `lapDurationValue ?? 0`: the duration the gaps use, 0 when missing. */
  function GapBase(duration: Option<int>): int {
    if duration.Some? then duration.value else 0
  }

  /** The duration a row's gaps are computed from: its driver's newest lap
      duration, 0 when missing. */
  function DurationOf(streams: Streams, row: TimingRow): int {
    GapBase(LapDurationOf(streams, row.driverNumber))
  }

  function SectorOf(lap: Option<Lap>, k: nat): Option<int>
    requires 1 <= k <= 3
  {
    if lap.None? then None
    else if k == 1 then lap.value.sector1
    else if k == 2 then lap.value.sector2
    else lap.value.sector3
  }

  /** `currentStint?.compound || '—'`. */
  function TyreOf(streams: Streams, d: int): string {
    if d in streams.stints then OrStr(streams.stints[d].compound, Dash) else Dash
  }

  /** The row of one driver, before sorting. */
  function BaseRowFor(driver: Driver, streams: Streams): BaseRow {
    var d := driver.driverNumber;
    var lap := LapOf(streams, d);
    BaseRow(
      d,
      DriverCode(driver),
      driver.broadcastName,
      driver.teamName,
      TeamColorOf(driver.teamColour),
      if d in streams.positions then streams.positions[d] else 99,
      LapDurationOf(streams, d),
      FormatLapSeconds(LapDurationOf(streams, d)),
      SectorText(SectorOf(lap, 1)),
      SectorText(SectorOf(lap, 2)),
      SectorText(SectorOf(lap, 3)),
      Tally(streams.pits, d),
      TyreOf(streams, d))
  }

  function BasePosition(b: BaseRow): int { b.position }

  /** The finished row: the base row with its interval and gap. */
  function Finish(b: BaseRow, interval: string, gap: string): TimingRow {
    TimingRow(b.driverNumber, b.code, b.broadcastName, b.teamName, b.teamColor, b.position,
      interval, gap, b.lastLap, b.sector1, b.sector2, b.sector3, b.pitStops, b.tyre)
  }

  /** Interval to the row ahead: the duration difference to the previous
      row, a missing duration counting as 0; the first row has the dash. */
  function Interval(base: seq<BaseRow>, i: nat): string
    requires i < |base|
  {
    if i > 0 then FormatDelta(Some(GapBase(base[i].lapDuration) - GapBase(base[i - 1].lapDuration))) else Dash
  }

  /** Gap to the leader: the duration difference to the first row, a missing
      duration counting as 0; the first row is the leader. */
  function Gap(base: seq<BaseRow>, i: nat): string
    requires i < |base|
  {
    if i == 0 then "Leader" else FormatDelta(Some(GapBase(base[i].lapDuration) - GapBase(base[0].lapDuration)))
  }

  /** The sorted base rows with their intervals and gaps. */
  function Annotate(base: seq<BaseRow>): (rows: seq<TimingRow>)
    ensures |rows| == |base|
    ensures forall i | 0 <= i < |base| :: rows[i] == Finish(base[i], Interval(base, i), Gap(base, i))
  {
    seq(|base|, i requires 0 <= i < |base| => Finish(base[i], Interval(base, i), Gap(base, i)))
  }

  predicate HasPosition(streams: Streams, d: Driver) {
    d.driverNumber in streams.positions
  }

  /** The drivers with a position, in driver-list order. */
  function DriversWithPosition(drivers: seq<Driver>, streams: Streams): seq<Driver> {
    Filter(drivers, (d: Driver) => HasPosition(streams, d))
  }

  /** Base rows of the drivers with a position, sorted by position. */
  function SortedBaseRows(drivers: seq<Driver>, streams: Streams): seq<BaseRow> {
    SortBy(MapSeq((d: Driver) => BaseRowFor(d, streams), DriversWithPosition(drivers, streams)), BasePosition)
  }

  /** The fusion step common to both builders. */
  function FusedRows(drivers: seq<Driver>, streams: Streams): seq<TimingRow> {
    Annotate(SortedBaseRows(drivers, streams))
  }

  /** `raceControl.slice(-8).reverse()`: the last eight messages, newest first. */
  function RecentFirst(messages: seq<RaceControl>): seq<RaceControl> {
    Reverse(messages[if |messages| > 8 then |messages| - 8 else 0..])
  }

  /** At most eight messages survive, and the i-th is the i-th from the end. */
  lemma RecentFirstSpec(messages: seq<RaceControl>)
    ensures |RecentFirst(messages)| <= 8
    ensures |RecentFirst(messages)| == if |messages| > 8 then 8 else |messages|
    ensures forall i | 0 <= i < |RecentFirst(messages)| ::
      RecentFirst(messages)[i] == messages[|messages| - 1 - i]
  {
  }

  // ---------------------------------------------------------------------------
  // Properties of the fused rows

  /** `b` is the base row of a listed driver with a position. */
  ghost predicate IsBaseRowOf(b: BaseRow, drivers: seq<Driver>, streams: Streams) {
    exists d | d in drivers && HasPosition(streams, d) :: b == BaseRowFor(d, streams)
  }

  /** `row` is the finished row of a listed driver with a position. */
  ghost predicate IsRowOf(row: TimingRow, drivers: seq<Driver>, streams: Streams) {
    exists d | d in drivers && HasPosition(streams, d) ::
      row == Finish(BaseRowFor(d, streams), row.interval, row.gapToLeader)
  }

  /** The driver a row of `IsRowOf` belongs to. */
  lemma RowSource(row: TimingRow, drivers: seq<Driver>, streams: Streams) returns (d: Driver)
    requires IsRowOf(row, drivers, streams)
    ensures d in drivers && HasPosition(streams, d)
    ensures row == Finish(BaseRowFor(d, streams), row.interval, row.gapToLeader)
  {
    d :| d in drivers && HasPosition(streams, d) && row == Finish(BaseRowFor(d, streams), row.interval, row.gapToLeader);
  }

  /** Some row is that of driver number `n`. */
  ghost predicate HasRowFor(rows: seq<TimingRow>, n: int) {
    exists i | 0 <= i < |rows| :: rows[i].driverNumber == n
  }

  /** The sorted base rows are ordered by position, are one per listed driver
      with a position, and each is such a driver's row. */
  lemma SortedBaseRowsFacts(drivers: seq<Driver>, streams: Streams)
    ensures var base := SortedBaseRows(drivers, streams);
      SortedBy(base, BasePosition)
      && |base| == |DriversWithPosition(drivers, streams)|
      && (forall b | b in base :: IsBaseRowOf(b, drivers, streams))
      && (forall d | d in drivers && HasPosition(streams, d) :: BaseRowFor(d, streams) in base)
      && (forall b | b in base :: b.lapDuration == LapDurationOf(streams, b.driverNumber))
  {
    BaseRowsMembers(drivers, streams);
  }

  /** A base row carries its driver's number and lap duration. */
  lemma BaseRowLap(d: Driver, streams: Streams)
    ensures BaseRowFor(d, streams).driverNumber == d.driverNumber
    ensures BaseRowFor(d, streams).lapDuration == LapDurationOf(streams, d.driverNumber)
  {
  }

  /** The members of the sorted base rows. */
  lemma BaseRowsMembers(drivers: seq<Driver>, streams: Streams)
    ensures var base := SortedBaseRows(drivers, streams);
      (forall b | b in base :: IsBaseRowOf(b, drivers, streams))
      && (forall d | d in drivers && HasPosition(streams, d) :: BaseRowFor(d, streams) in base)
      && (forall b | b in base :: b.lapDuration == LapDurationOf(streams, b.driverNumber))
  {
    var base := SortedBaseRows(drivers, streams);
    var has := (d: Driver) => HasPosition(streams, d);
    var build := (d: Driver) => BaseRowFor(d, streams);
    PermutedImages(drivers, has, build, base);
    forall b | b in base
      ensures IsBaseRowOf(b, drivers, streams)
      ensures b.lapDuration == LapDurationOf(streams, b.driverNumber)
    {
      var d := ImageWitness(b, drivers, has, build);
      BaseRowLap(d, streams);
    }
  }

  /** `rows` is `base` with intervals and gaps filled in. */
  ghost predicate AnnotatedFrom(rows: seq<TimingRow>, base: seq<BaseRow>) {
    |rows| == |base|
    && forall i | 0 <= i < |base| :: rows[i] == Finish(base[i], Interval(base, i), Gap(base, i))
  }

  lemma RowsKeepOrder(rows: seq<TimingRow>, base: seq<BaseRow>)
    requires AnnotatedFrom(rows, base)
    requires SortedBy(base, BasePosition)
    ensures forall i, j | 0 <= i < j < |rows| :: rows[i].position <= rows[j].position
  {
    forall i, j | 0 <= i < j < |rows| ensures rows[i].position <= rows[j].position {
      assert BasePosition(base[i]) <= BasePosition(base[j]);
    }
  }

  lemma RowsKeepDrivers(drivers: seq<Driver>, streams: Streams, rows: seq<TimingRow>, base: seq<BaseRow>)
    requires AnnotatedFrom(rows, base)
    requires forall b | b in base :: IsBaseRowOf(b, drivers, streams)
    requires forall d | d in drivers && HasPosition(streams, d) :: BaseRowFor(d, streams) in base
    ensures forall i | 0 <= i < |rows| :: IsRowOf(rows[i], drivers, streams)
    ensures forall d | d in drivers && HasPosition(streams, d) :: HasRowFor(rows, d.driverNumber)
  {
    forall i | 0 <= i < |rows| ensures IsRowOf(rows[i], drivers, streams) {
      assert base[i] in base;
      var d :| d in drivers && HasPosition(streams, d) && base[i] == BaseRowFor(d, streams);
      assert rows[i] == Finish(BaseRowFor(d, streams), rows[i].interval, rows[i].gapToLeader);
    }
    forall d | d in drivers && HasPosition(streams, d) ensures HasRowFor(rows, d.driverNumber) {
      var i :| 0 <= i < |base| && base[i] == BaseRowFor(d, streams);
      assert rows[i].driverNumber == d.driverNumber;
    }
  }

  /** Each annotated row's gap base is its driver's newest lap duration. */
  lemma RowsKeepDurations(streams: Streams, rows: seq<TimingRow>, base: seq<BaseRow>)
    requires AnnotatedFrom(rows, base)
    requires forall b | b in base :: b.lapDuration == LapDurationOf(streams, b.driverNumber)
    ensures forall i | 0 <= i < |base| :: GapBase(base[i].lapDuration) == DurationOf(streams, rows[i])
  {
    forall i | 0 <= i < |base|
      ensures GapBase(base[i].lapDuration) == DurationOf(streams, rows[i])
    {
      assert base[i] in base;
      assert rows[i].driverNumber == base[i].driverNumber;
    }
  }

  /** The first row leads; every other row's interval is its lap duration
      minus the previous row's and its gap its duration minus the leader's,
      a missing duration counting as 0. */
  ghost predicate GapsFollowDurations(rows: seq<TimingRow>, streams: Streams) {
    (|rows| > 0 ==> rows[0].interval == Dash && rows[0].gapToLeader == "Leader")
    && forall i | 0 < i < |rows| ::
         rows[i].interval == FormatDelta(Some(DurationOf(streams, rows[i]) - DurationOf(streams, rows[i - 1])))
         && rows[i].gapToLeader == FormatDelta(Some(DurationOf(streams, rows[i]) - DurationOf(streams, rows[0])))
  }

  /** One row's interval and gap, from its annotation and the durations. */
  lemma RowGapAt(streams: Streams, rows: seq<TimingRow>, base: seq<BaseRow>, i: nat)
    requires 0 < i < |rows| == |base|
    requires rows[i].interval == Interval(base, i) && rows[i].gapToLeader == Gap(base, i)
    requires GapBase(base[i].lapDuration) == DurationOf(streams, rows[i])
    requires GapBase(base[i - 1].lapDuration) == DurationOf(streams, rows[i - 1])
    requires GapBase(base[0].lapDuration) == DurationOf(streams, rows[0])
    ensures rows[i].interval == FormatDelta(Some(DurationOf(streams, rows[i]) - DurationOf(streams, rows[i - 1])))
    ensures rows[i].gapToLeader == FormatDelta(Some(DurationOf(streams, rows[i]) - DurationOf(streams, rows[0])))
  {
    var step := GapBase(base[i].lapDuration) - GapBase(base[i - 1].lapDuration);
    var lead := GapBase(base[i].lapDuration) - GapBase(base[0].lapDuration);
    assert step == DurationOf(streams, rows[i]) - DurationOf(streams, rows[i - 1]);
    assert lead == DurationOf(streams, rows[i]) - DurationOf(streams, rows[0]);
    assert Interval(base, i) == FormatDelta(Some(step));
    assert Gap(base, i) == FormatDelta(Some(lead));
  }

  lemma RowsKeepGaps(streams: Streams, rows: seq<TimingRow>, base: seq<BaseRow>)
    requires AnnotatedFrom(rows, base)
    requires forall i | 0 <= i < |base| :: GapBase(base[i].lapDuration) == DurationOf(streams, rows[i])
    ensures GapsFollowDurations(rows, streams)
  {
    forall i | 0 < i < |rows|
      ensures rows[i].interval == FormatDelta(Some(DurationOf(streams, rows[i]) - DurationOf(streams, rows[i - 1])))
      ensures rows[i].gapToLeader == FormatDelta(Some(DurationOf(streams, rows[i]) - DurationOf(streams, rows[0])))
    {
      RowGapAt(streams, rows, base, i);
    }
    if |rows| > 0 {
      assert rows[0].interval == Interval(base, 0);
      assert rows[0].gapToLeader == Gap(base, 0);
    }
  }

  /** Rows are ordered by non-decreasing position. */
  lemma FusedRowsSorted(drivers: seq<Driver>, streams: Streams)
    ensures var rows := FusedRows(drivers, streams);
      forall i, j | 0 <= i < j < |rows| :: rows[i].position <= rows[j].position
  {
    SortedBaseRowsFacts(drivers, streams);
    RowsKeepOrder(FusedRows(drivers, streams), SortedBaseRows(drivers, streams));
  }

  /** Rows exist exactly for the listed drivers with a position: each row
      carries the fields of such a driver's row, and each such driver has a
      row. */
  lemma FusedRowsMembership(drivers: seq<Driver>, streams: Streams)
    ensures var rows := FusedRows(drivers, streams);
      |rows| == |DriversWithPosition(drivers, streams)|
      && (forall i | 0 <= i < |rows| :: IsRowOf(rows[i], drivers, streams))
      && (forall d | d in drivers && HasPosition(streams, d) :: HasRowFor(rows, d.driverNumber))
  {
    SortedBaseRowsFacts(drivers, streams);
    RowsKeepDrivers(drivers, streams, FusedRows(drivers, streams), SortedBaseRows(drivers, streams));
  }

  /** The first row leads; every other row's interval is its lap duration
      minus the previous row's and its gap its duration minus the leader's,
      a missing duration counting as 0. */
  lemma FusedRowsGaps(drivers: seq<Driver>, streams: Streams)
    ensures GapsFollowDurations(FusedRows(drivers, streams), streams)
  {
    SortedBaseRowsFacts(drivers, streams);
    RowsKeepDurations(streams, FusedRows(drivers, streams), SortedBaseRows(drivers, streams));
    RowsKeepGaps(streams, FusedRows(drivers, streams), SortedBaseRows(drivers, streams));
  }

  // ---------------------------------------------------------------------------
  // The live builder

  /** `positionsByDriver.get(d) || 99`: a reported 0 is shown as 99 too. */
  function LivePositions(index: map<int, int>): (shown: map<int, int>)
    ensures shown.Keys == index.Keys
    ensures forall d | d in shown :: shown[d] == (if index[d] != 0 then index[d] else 99)
  {
    map d | d in index :: if index[d] != 0 then index[d] else 99
  }

  /** The lookups of the live builder: newest lap by lap number, current
      stint by stint number, pit tally, positions from the latest records. */
  function LiveStreams(latestPositions: seq<Position>, laps: seq<Lap>, stints: seq<Stint>, pits: seq<Pit>): Streams {
    Streams(
      LatestFold(laps, LapDriver, LapNumber),
      LatestFold(stints, StintDriver, StintNumber),
      CountFold(pits, PitDriver),
      LivePositions(IndexFold(latestPositions, PositionDriver, PositionValue)))
  }

  function LiveSnapshot(session: Session, drivers: seq<Driver>, latestPositions: seq<Position>,
    laps: seq<Lap>, stints: seq<Stint>, pits: seq<Pit>, raceControl: seq<RaceControl>): Snapshot
  {
    Snapshot(
      FusedRows(drivers, LiveStreams(latestPositions, laps, stints, pits)),
      RecentFirst(raceControl),
      session.sessionType)
  }

  /** `buildTimingSnapshot` after its fetches: the three reductions, the
      position index, then the fusion. */
  method BuildTimingSnapshot(session: Session, drivers: seq<Driver>, latestPositions: seq<Position>,
    laps: seq<Lap>, stints: seq<Stint>, pits: seq<Pit>, raceControl: seq<RaceControl>)
    returns (snapshot: Snapshot)
    ensures snapshot == LiveSnapshot(session, drivers, latestPositions, laps, stints, pits, raceControl)
  {
    var lapByDriver := LatestByDriver(laps, LapDriver, LapNumber);
    var stintByDriver := LatestByDriver(stints, StintDriver, StintNumber);
    var pitStopsByDriver := CountByDriver(pits, PitDriver);
    var positionsByDriver := IndexByDriver(latestPositions, PositionDriver, PositionValue);
    var streams := Streams(lapByDriver, stintByDriver, pitStopsByDriver, LivePositions(positionsByDriver));
    snapshot := Snapshot(FusedRows(drivers, streams), RecentFirst(raceControl), session.sessionType);
  }

  /** Some listed driver has number `n`. */
  ghost predicate IsListed(drivers: seq<Driver>, n: int) {
    exists d | d in drivers :: d.driverNumber == n
  }

  /** Live rows exist exactly for the listed drivers that have a position
      record: every row belongs to such a driver and every such driver has a
      row. */
  lemma LiveRowMembership(drivers: seq<Driver>, latestPositions: seq<Position>,
    laps: seq<Lap>, stints: seq<Stint>, pits: seq<Pit>)
    ensures var rows := FusedRows(drivers, LiveStreams(latestPositions, laps, stints, pits));
      (forall i | 0 <= i < |rows| ::
        IsListed(drivers, rows[i].driverNumber) && HasDriver(latestPositions, PositionDriver, rows[i].driverNumber))
      && (forall d | d in drivers && HasDriver(latestPositions, PositionDriver, d.driverNumber) ::
        HasRowFor(rows, d.driverNumber))
  {
    var streams := LiveStreams(latestPositions, laps, stints, pits);
    var rows := FusedRows(drivers, streams);
    IndexFoldLastWins(latestPositions, PositionDriver, PositionValue);
    FusedRowsMembership(drivers, streams);
    forall i | 0 <= i < |rows|
      ensures IsListed(drivers, rows[i].driverNumber) && HasDriver(latestPositions, PositionDriver, rows[i].driverNumber)
    {
      var d := RowSource(rows[i], drivers, streams);
      assert d.driverNumber == rows[i].driverNumber;
    }
    forall d | d in drivers && HasDriver(latestPositions, PositionDriver, d.driverNumber)
      ensures HasRowFor(rows, d.driverNumber)
    {
      assert HasPosition(streams, d);
    }
  }

  /** The tyre a live row shows for driver `d`: the compound of the driver's
      highest-numbered stint, or the dash when it has none. */
  ghost predicate TyreDefault(tyre: string, d: int, stints: seq<Stint>) {
    (!HasDriver(stints, StintDriver, d) ==> tyre == Dash)
    && (HasDriver(stints, StintDriver, d) ==>
         exists s | s in stints && s.driverNumber == d ::
           tyre == OrStr(s.compound, Dash)
           && forall t | t in stints && t.driverNumber == d :: t.stintNumber <= s.stintNumber)
  }

  /** The lap time and sectors a live row shows for driver `d`: those of the
      driver's highest-numbered lap, or the dash when it has none. */
  ghost predicate LapDefault(row: TimingRow, d: int, laps: seq<Lap>) {
    (!HasDriver(laps, LapDriver, d) ==>
       row.lastLap == Dash && row.sector1 == Dash && row.sector2 == Dash && row.sector3 == Dash)
    && (HasDriver(laps, LapDriver, d) ==>
         exists l | l in laps && l.driverNumber == d ::
           row.lastLap == FormatLapSeconds(l.lapDuration)
           && row.sector1 == SectorText(l.sector1)
           && row.sector2 == SectorText(l.sector2)
           && row.sector3 == SectorText(l.sector3)
           && forall m | m in laps && m.driverNumber == d :: m.lapNumber <= l.lapNumber)
  }

  /** The defaults a live row shows: its pit count is the number of pit
      records of its driver (0 if none), its tyre and lap columns as above. */
  ghost predicate LiveDefaults(row: TimingRow, laps: seq<Lap>, stints: seq<Stint>, pits: seq<Pit>) {
    row.pitStops == CountOf(pits, PitDriver, row.driverNumber)
    && TyreDefault(row.tyre, row.driverNumber, stints)
    && LapDefault(row, row.driverNumber, laps)
  }

  /** The entry the fold keeps for a driver that occurs in the stream is
      one of that driver's entries, ranked at least as high as all of them. */
  lemma LatestIsMaximal<T>(entries: seq<T>, driverOf: T -> int, rank: T -> int, d: int)
    requires HasDriver(entries, driverOf, d)
    ensures d in LatestFold(entries, driverOf, rank)
    ensures var e := LatestFold(entries, driverOf, rank)[d];
      e in entries && driverOf(e) == d
      && forall t | t in entries && driverOf(t) == d :: rank(t) <= rank(e)
  {
    LatestFoldKeys(entries, driverOf, rank);
    LatestFoldMaximal(entries, driverOf, rank);
    var e := LatestFold(entries, driverOf, rank)[d];
    forall t | t in entries && driverOf(t) == d ensures rank(t) <= rank(e) {
      var j :| 0 <= j < |entries| && entries[j] == t;
    }
  }

  lemma TyreOfDefault(stints: seq<Stint>, d: int, streams: Streams)
    requires streams.stints == LatestFold(stints, StintDriver, StintNumber)
    ensures TyreDefault(TyreOf(streams, d), d, stints)
  {
    LatestFoldKeys(stints, StintDriver, StintNumber);
    if HasDriver(stints, StintDriver, d) {
      LatestIsMaximal(stints, StintDriver, StintNumber, d);
      var s := streams.stints[d];
      assert s in stints && s.driverNumber == d;
      assert TyreOf(streams, d) == OrStr(s.compound, Dash);
    }
  }

  /** The lap columns of a base row are those of the lap kept for its
      driver, or dashes. */
  lemma BaseRowLapColumns(driver: Driver, streams: Streams)
    ensures var b := BaseRowFor(driver, streams);
      var d := driver.driverNumber;
      (d in streams.laps ==>
        b.lastLap == FormatLapSeconds(streams.laps[d].lapDuration)
        && b.sector1 == SectorText(streams.laps[d].sector1)
        && b.sector2 == SectorText(streams.laps[d].sector2)
        && b.sector3 == SectorText(streams.laps[d].sector3))
      && (d !in streams.laps ==>
        b.lastLap == Dash && b.sector1 == Dash && b.sector2 == Dash && b.sector3 == Dash)
  {
  }

  lemma LapOfDefault(laps: seq<Lap>, driver: Driver, streams: Streams, interval: string, gap: string)
    requires streams.laps == LatestFold(laps, LapDriver, LapNumber)
    ensures LapDefault(Finish(BaseRowFor(driver, streams), interval, gap), driver.driverNumber, laps)
  {
    var d := driver.driverNumber;
    var b := BaseRowFor(driver, streams);
    var row := Finish(b, interval, gap);
    BaseRowLapColumns(driver, streams);
    assert row.lastLap == b.lastLap && row.sector1 == b.sector1 && row.sector2 == b.sector2 && row.sector3 == b.sector3;
    LatestFoldKeys(laps, LapDriver, LapNumber);
    if HasDriver(laps, LapDriver, d) {
      LatestIsMaximal(laps, LapDriver, LapNumber, d);
      var l := streams.laps[d];
      assert l in laps && l.driverNumber == d;
    }
  }

  /** A driver's live row shows the defaults above, whatever its interval
      and gap. */
  lemma LiveBaseRowDefaults(driver: Driver, latestPositions: seq<Position>,
    laps: seq<Lap>, stints: seq<Stint>, pits: seq<Pit>, interval: string, gap: string)
    ensures LiveDefaults(Finish(BaseRowFor(driver, LiveStreams(latestPositions, laps, stints, pits)), interval, gap),
      laps, stints, pits)
  {
    var streams := LiveStreams(latestPositions, laps, stints, pits);
    CountFoldCounts(pits, PitDriver);
    TyreOfDefault(stints, driver.driverNumber, streams);
    LapOfDefault(laps, driver, streams, interval, gap);
  }

  /** Every live row shows the defaults above. */
  lemma LiveRowDefaults(drivers: seq<Driver>, latestPositions: seq<Position>,
    laps: seq<Lap>, stints: seq<Stint>, pits: seq<Pit>)
    ensures var rows := FusedRows(drivers, LiveStreams(latestPositions, laps, stints, pits));
      forall i | 0 <= i < |rows| :: LiveDefaults(rows[i], laps, stints, pits)
  {
    var streams := LiveStreams(latestPositions, laps, stints, pits);
    var rows := FusedRows(drivers, streams);
    FusedRowsMembership(drivers, streams);
    forall i | 0 <= i < |rows| ensures LiveDefaults(rows[i], laps, stints, pits) {
      var d := RowSource(rows[i], drivers, streams);
      LiveBaseRowDefaults(d, latestPositions, laps, stints, pits, rows[i].interval, rows[i].gapToLeader);
    }
  }

  /** A live row's position is the last reported position of its driver,
      except that a reported 0 is shown as 99. */
  lemma LiveRowPosition(drivers: seq<Driver>, latestPositions: seq<Position>,
    laps: seq<Lap>, stints: seq<Stint>, pits: seq<Pit>, k: nat)
    requires k < |latestPositions|
    requires forall j | k < j < |latestPositions| ::
      latestPositions[j].driverNumber != latestPositions[k].driverNumber
    ensures var rows := FusedRows(drivers, LiveStreams(latestPositions, laps, stints, pits));
      forall i | 0 <= i < |rows| && rows[i].driverNumber == latestPositions[k].driverNumber ::
        rows[i].position == (if latestPositions[k].position != 0 then latestPositions[k].position else 99)
  {
    var streams := LiveStreams(latestPositions, laps, stints, pits);
    var rows := FusedRows(drivers, streams);
    IndexFoldLastWins(latestPositions, PositionDriver, PositionValue);
    assert PositionDriver(latestPositions[k]) in IndexFold(latestPositions, PositionDriver, PositionValue);
    FusedRowsMembership(drivers, streams);
    forall i | 0 <= i < |rows| && rows[i].driverNumber == latestPositions[k].driverNumber
      ensures rows[i].position == (if latestPositions[k].position != 0 then latestPositions[k].position else 99)
    {
      var d := RowSource(rows[i], drivers, streams);
    }
  }

  // ---------------------------------------------------------------------------
  // Session selection

  /** Sessions in order of start. */
  function SortSessions(sessions: seq<Session>): seq<Session> {
    SortBy(sessions, SessionStart)
  }

  /** The live session is the latest-starting session that is live now; the
      next session is the earliest-starting one that starts after now. */
  function LiveSessionAndNext(sessions: seq<Session>, now: int): (Option<Session>, Option<Session>) {
    var sorted := SortSessions(sessions);
    var live := Filter(sorted, (s: Session) => OpenF1.IsSessionLive(s, now));
    (if |live| > 0 then Some(live[|live| - 1]) else None,
     FindFirst(sorted, (s: Session) => s.dateStart > now))
  }

  /** Sorting keeps the sessions. */
  lemma SortSessionsMembers(sessions: seq<Session>)
    ensures forall s :: s in SortSessions(sessions) <==> s in sessions
  {
    forall s ensures s in SortSessions(sessions) <==> s in sessions {
      PermutationMembers(SortSessions(sessions), sessions, s);
    }
  }

  /** No live session iff none is live; otherwise it is live and no live
      session starts later. */
  lemma LiveSessionSpec(sessions: seq<Session>, now: int)
    ensures var live := LiveSessionAndNext(sessions, now).0;
      (live.None? <==> forall s | s in sessions :: !OpenF1.IsSessionLive(s, now))
      && (live.Some? ==> (live.value in sessions && OpenF1.IsSessionLive(live.value, now)))
      && (live.Some? ==> forall s | s in sessions && OpenF1.IsSessionLive(s, now) :: s.dateStart <= live.value.dateStart)
  {
    var sorted := SortSessions(sessions);
    var isLive := (s: Session) => OpenF1.IsSessionLive(s, now);
    var live := Filter(sorted, isLive);
    SortSessionsMembers(sessions);
    if |live| > 0 {
      assert live[|live| - 1] in live;
      forall s | s in sessions && OpenF1.IsSessionLive(s, now) ensures s.dateStart <= live[|live| - 1].dateStart {
        LiveFilterLastIsLatest(sorted, isLive, s);
      }
    }
  }

  /** No next session iff every session has started; otherwise it starts
      after now and no later-starting session starts before it. */
  lemma NextSessionSpec(sessions: seq<Session>, now: int)
    ensures var next := LiveSessionAndNext(sessions, now).1;
      (next.None? <==> forall s | s in sessions :: s.dateStart <= now)
      && (next.Some? ==> (next.value in sessions && next.value.dateStart > now))
      && (next.Some? ==> forall s | s in sessions && s.dateStart > now :: next.value.dateStart <= s.dateStart)
  {
    var sorted := SortSessions(sessions);
    var next := FindFirst(sorted, (s: Session) => s.dateStart > now);
    SortSessionsMembers(sessions);
    if next.Some? {
      var i :| 0 <= i < |sorted| && sorted[i] == next.value && forall j | 0 <= j < i :: !(sorted[j].dateStart > now);
      FirstStartedAfterIsEarliest(sorted, now, i);
      forall s | s in sessions && s.dateStart > now ensures next.value.dateStart <= s.dateStart {
        assert s in sorted;
      }
    } else {
      forall s | s in sessions ensures s.dateStart <= now {
        assert s in sorted;
      }
    }
  }

  /** In a list sorted by start, the first session starting after `now`
      starts no later than any other session starting after `now`. */
  lemma FirstStartedAfterIsEarliest(sorted: seq<Session>, now: int, i: nat)
    requires SortedBy(sorted, SessionStart)
    requires i < |sorted| && forall j | 0 <= j < i :: sorted[j].dateStart <= now
    ensures forall s | s in sorted && s.dateStart > now :: sorted[i].dateStart <= s.dateStart
  {
    forall s | s in sorted && s.dateStart > now ensures sorted[i].dateStart <= s.dateStart {
      var k :| 0 <= k < |sorted| && sorted[k] == s;
      if i < k {
        assert SessionStart(sorted[i]) <= SessionStart(sorted[k]);
      }
    }
  }

  /** In a list sorted by start, the last element passing a filter starts
      no earlier than any element passing it. */
  lemma {:induction false} LiveFilterLastIsLatest(sorted: seq<Session>, p: Session -> bool, s: Session)
    requires SortedBy(sorted, SessionStart)
    requires s in sorted && p(s)
    ensures |Filter(sorted, p)| > 0
    ensures s.dateStart <= Filter(sorted, p)[|Filter(sorted, p)| - 1].dateStart
    decreases |sorted|
  {
    var n := |sorted| - 1;
    var prefix := sorted[..n];
    var k :| 0 <= k < |sorted| && sorted[k] == s;
    if p(sorted[n]) {
      assert Filter(sorted, p) == Filter(prefix, p) + [sorted[n]];
      assert SessionStart(sorted[k]) <= SessionStart(sorted[n]) || k == n;
    } else {
      assert Filter(sorted, p) == Filter(prefix, p);
      assert k != n;
      assert prefix[k] == s;
      SortedPrefix(sorted, SessionStart, n);
      LiveFilterLastIsLatest(prefix, p, s);
    }
  }

  /** A race whose end has passed. */
  predicate IsCompletedRace(s: Session, now: int) {
    s.sessionName == "Race" && s.dateEnd <= now
  }

  function NegatedEnd(s: Session): int { -s.dateEnd }

  /** `getLatestCompletedRaceSession` over this year's and last year's race
      sessions: the completed race that ended last. */
  function LatestCompletedRaceSession(currentYearRaces: seq<Session>, previousYearRaces: seq<Session>, now: int): Option<Session> {
    var completed := SortBy(Filter(currentYearRaces + previousYearRaces, (s: Session) => IsCompletedRace(s, now)), NegatedEnd);
    if |completed| > 0 then Some(completed[0]) else None
  }

  lemma LatestCompletedRaceSessionSpec(currentYearRaces: seq<Session>, previousYearRaces: seq<Session>, now: int)
    ensures var r := LatestCompletedRaceSession(currentYearRaces, previousYearRaces, now);
      var all := currentYearRaces + previousYearRaces;
      (r.None? <==> forall s | s in all :: !IsCompletedRace(s, now))
      && (r.Some? ==> (r.value in all && IsCompletedRace(r.value, now)))
      && (r.Some? ==> forall s | s in all && IsCompletedRace(s, now) :: s.dateEnd <= r.value.dateEnd)
  {
    var all := currentYearRaces + previousYearRaces;
    var eligible := Filter(all, (s: Session) => IsCompletedRace(s, now));
    var completed := SortBy(eligible, NegatedEnd);
    forall s ensures s in completed <==> s in eligible {
      PermutationMembers(completed, eligible, s);
    }
    if |completed| > 0 {
      assert completed[0] in completed;
      forall s | s in all && IsCompletedRace(s, now) ensures s.dateEnd <= completed[0].dateEnd {
        assert s in eligible;
        var k :| 0 <= k < |completed| && completed[k] == s;
        assert k == 0 || NegatedEnd(completed[0]) <= NegatedEnd(completed[k]);
      }
    } else {
      assert |eligible| == 0;
    }
  }

  /** `getSessionByKey`: the first session the feed returns for the key. */
  function SessionByKey(answer: seq<Session>): Option<Session> {
    if |answer| > 0 then Some(answer[0]) else None
  }

  /** What the feed returns for the selected session. */
  datatype SessionFeed = SessionFeed(
    drivers: seq<Driver>,
    positions: seq<Position>,
    laps: seq<Lap>,
    stints: seq<Stint>,
    pitStops: seq<Pit>,
    raceControl: seq<RaceControl>)

  datatype Bootstrap = Bootstrap(
    mode: Mode,
    liveSession: Option<Session>,
    replaySession: Option<Session>,
    selectedSession: Option<Session>,
    weekendSessions: seq<Session>,
    nextSession: Option<Session>,
    snapshot: Option<Snapshot>,
    replayData: Option<ReplayData>)

  /** The snapshot the builder produces from a feed. */
  function FeedSnapshot(session: Session, feed: SessionFeed): Snapshot {
    LiveSnapshot(session, feed.drivers, OpenF1.LatestPositions(feed.positions), feed.laps, feed.stints,
      feed.pitStops, feed.raceControl)
  }

  /** `getTimingBootstrap` after its fetches. `preferredKey` is the optional
      key the page asks for (0 counts as absent, as in JavaScript), `byKey`
      the feed's answer for that key, `meetingSessions` the sessions of the
      selected session's meeting, `feed` the streams of the selected session. */
  method GetTimingBootstrap(preferredKey: Option<int>, sessions: seq<Session>,
    currentYearRaces: seq<Session>, previousYearRaces: seq<Session>, byKey: seq<Session>,
    meetingSessions: seq<Session>, feed: SessionFeed, now: int)
    returns (b: Bootstrap)
    ensures var (live, next) := LiveSessionAndNext(sessions, now);
      var replay := LatestCompletedRaceSession(currentYearRaces, previousYearRaces, now);
      var preferred := if preferredKey.Some? && preferredKey.value != 0 then SessionByKey(byKey) else None;
      b.liveSession == live && b.nextSession == next && b.replaySession == replay
      && b.selectedSession == (if preferred.Some? then preferred else if live.Some? then live else replay)
      && (b.mode == Live <==> if preferred.Some? then OpenF1.IsSessionLive(preferred.value, now) else live.Some?)
    ensures WellFormedBootstrap(b, meetingSessions, feed)
  {
    var liveAndNext := LiveSessionAndNext(sessions, now);
    var liveSession := liveAndNext.0;
    var nextSession := liveAndNext.1;
    var replaySession := LatestCompletedRaceSession(currentYearRaces, previousYearRaces, now);

    var mode := if liveSession.Some? then Live else Replay;
    var selectedSession: Option<Session> := None;
    if preferredKey.Some? && preferredKey.value != 0 {
      selectedSession := SessionByKey(byKey);
      if selectedSession.Some? {
        mode := if OpenF1.IsSessionLive(selectedSession.value, now) then Live else Replay;
      }
    }
    if selectedSession.None? {
      selectedSession := if liveSession.Some? then liveSession else replaySession;
    }

    var weekendSessions: seq<Session> := [];
    if selectedSession.Some? && selectedSession.value.meetingKey != 0 {
      weekendSessions := SortSessions(meetingSessions);
    }

    var snapshot: Option<Snapshot> := None;
    var replayData: Option<ReplayData> := None;
    if selectedSession.Some? {
      var latestPositions := OpenF1.GetLatestPositions(feed.positions);
      if mode == Live {
        var s := BuildTimingSnapshot(selectedSession.value, feed.drivers, latestPositions, feed.laps,
          feed.stints, feed.pitStops, feed.raceControl);
        snapshot := Some(s);
      } else {
        replayData := Some(ReplayData(feed.drivers, feed.laps, feed.positions, feed.stints, feed.pitStops, feed.raceControl));
        var s := BuildTimingSnapshot(selectedSession.value, feed.drivers, latestPositions, feed.laps,
          feed.stints, feed.pitStops, feed.raceControl);
        snapshot := Some(s);
      }
    }

    b := Bootstrap(mode, liveSession, replaySession, selectedSession, weekendSessions, nextSession, snapshot, replayData);
  }

  /** A bootstrap is well formed when its snapshot exists iff a session is
      selected and is then that session's snapshot, replay data exists iff a
      session is selected in replay mode, and the weekend list is the sorted
      meeting list when the selected session has a meeting key. */
  ghost predicate WellFormedBootstrap(b: Bootstrap, meetingSessions: seq<Session>, feed: SessionFeed) {
    (b.snapshot.None? <==> b.selectedSession.None?)
    && (b.snapshot.Some? ==> b.snapshot.value == FeedSnapshot(b.selectedSession.value, feed))
    && (b.replayData.Some? <==> b.selectedSession.Some? && b.mode == Replay)
    && b.weekendSessions == (if b.selectedSession.Some? && b.selectedSession.value.meetingKey != 0
                             then SortSessions(meetingSessions) else [])
  }
}
