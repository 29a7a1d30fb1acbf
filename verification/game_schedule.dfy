/** The weekend schedule of the prediction game: one entry per session the
    game predicts (qualifying, sprint qualifying, sprint, race), each with
    its start, whether predictions are locked and whether the session is
    over, sorted by start; and the driver list, taken from the season's
    standings once they are complete enough. The clock is a parameter. */
module GameSchedule {
  import opened Common
  import opened F1Types
  import opened GamePredictions

  const QualifyingLength := 2 * HourMs
  const SprintQualifyingLength := 90 * 60000
  const SprintLength := 1 * HourMs
  const RaceLength := 150 * 60000

  datatype SessionSchedule = SessionSchedule(
    sessionType: GameSessionType,
    caption: string,
    startTime: int,
    isLocked: bool,
    isCompleted: bool)

  datatype WeekendSchedule = WeekendSchedule(
    season: Option<int>,
    round: Option<int>,
    raceName: string,
    circuitName: string,
    country: string,
    isSprint: bool,
    sessions: seq<SessionSchedule>)

  function SessionStartOf(s: SessionSchedule): int { s.startTime }
  function SessionTypeOf(s: SessionSchedule): GameSessionType { s.sessionType }

  /** How long a session runs before it counts as completed. */
  function SessionLength(sessionType: GameSessionType): (ms: int)
    ensures ms > 0
  {
    match sessionType
    case Qualifying => QualifyingLength
    case SprintQualifying => SprintQualifyingLength
    case Sprint => SprintLength
    case Race => RaceLength
  }

  /** One schedule entry: locked from its start, completed once its length
      has passed. */
  function Entry(sessionType: GameSessionType, caption: string, startTime: int, now: int): (e: SessionSchedule)
    ensures e.sessionType == sessionType && e.startTime == startTime
    ensures e.isLocked <==> now >= startTime
    ensures e.isCompleted <==> now >= startTime + SessionLength(sessionType)
    ensures e.isCompleted ==> e.isLocked
  {
    SessionSchedule(sessionType, caption, startTime, now >= startTime, now >= startTime + SessionLength(sessionType))
  }

  /** The entry of a weekend session, if it is pushed. */
  function QualifyingEntry(race: CalendarRace, now: int): seq<SessionSchedule> {
    if race.qualifying.Some? then
      [Entry(Qualifying, "Kwalificatie", race.qualifying.value.date + race.qualifying.value.time, now)]
    else []
  }

  function SprintQualifyingEntry(race: CalendarRace, now: int): seq<SessionSchedule> {
    if race.sprint.Some? && race.sprintQualifying.Some? then
      [Entry(SprintQualifying, "Sprint Kwalificatie", race.sprintQualifying.value.date + race.sprintQualifying.value.time, now)]
    else []
  }

  function SprintEntry(race: CalendarRace, now: int): seq<SessionSchedule> {
    if race.sprint.Some? then [Entry(Sprint, "Sprint Race", race.sprint.value.date + race.sprint.value.time, now)] else []
  }

  function RaceEntry(race: CalendarRace, now: int): SessionSchedule {
    Entry(Race, "Race", race.date + race.time.GetOr(DefaultRaceTime), now)
  }

  /** The entries in the order they are pushed. */
  function PushedSessions(race: CalendarRace, now: int): seq<SessionSchedule> {
    QualifyingEntry(race, now) + SprintQualifyingEntry(race, now) + SprintEntry(race, now) + [RaceEntry(race, now)]
  }

  /** `buildWeekendSchedule`: the pushed entries sorted by start. */
  function BuildWeekendSchedule(race: CalendarRace, now: int): (w: WeekendSchedule)
    ensures w.isSprint <==> race.sprint.Some?
    ensures SortedBy(w.sessions, SessionStartOf)
    ensures multiset(w.sessions) == multiset(PushedSessions(race, now))
    ensures 1 <= |w.sessions| <= 4
    ensures w.season == ParseIntNoRadix(race.season) && w.round == ParseIntNoRadix(race.round)
  {
    WeekendSchedule(ParseIntNoRadix(race.season), ParseIntNoRadix(race.round), race.raceName, race.circuit.circuitName,
      race.circuit.country, race.sprint.Some?, SortBy(PushedSessions(race, now), SessionStartOf))
  }

  /** Two sequences distinct by a key, sharing no key, concatenate to one
      distinct by it. */
  lemma ConcatDistinctBy<T, K>(a: seq<T>, b: seq<T>, f: T -> K)
    requires DistinctBy(a, f) && DistinctBy(b, f)
    requires forall x, y | x in a && y in b :: f(x) != f(y)
    ensures DistinctBy(a + b, f)
  {
    var c := a + b;
    forall i, j | 0 <= i < j < |c|
      ensures f(c[i]) != f(c[j])
    {
      if j < |a| {
        assert c[i] == a[i] && c[j] == a[j];
      } else if i >= |a| {
        assert c[i] == b[i - |a|] && c[j] == b[j - |a|];
      } else {
        assert c[i] in a && c[j] in b;
      }
    }
  }

  /** The pushed entries have distinct session types. */
  lemma PushedSessionsDistinct(race: CalendarRace, now: int)
    ensures DistinctBy(PushedSessions(race, now), SessionTypeOf)
  {
    var q := QualifyingEntry(race, now);
    var sq := SprintQualifyingEntry(race, now);
    var sp := SprintEntry(race, now);
    var r := [RaceEntry(race, now)];
    ConcatDistinctBy(q, sq, SessionTypeOf);
    ConcatDistinctBy(q + sq, sp, SessionTypeOf);
    ConcatDistinctBy(q + sq + sp, r, SessionTypeOf);
  }

  /** The membership of each session type among the pushed entries. */
  lemma PushedSessionsTypes(race: CalendarRace, now: int)
    ensures var pushed := PushedSessions(race, now);
      (exists s | s in pushed :: s.sessionType == Race)
      && ((exists s | s in pushed :: s.sessionType == Qualifying) <==> race.qualifying.Some?)
      && ((exists s | s in pushed :: s.sessionType == SprintQualifying) <==> race.sprint.Some? && race.sprintQualifying.Some?)
      && ((exists s | s in pushed :: s.sessionType == Sprint) <==> race.sprint.Some?)
  {
    var pushed := PushedSessions(race, now);
    assert forall s | s in pushed ::
      s in QualifyingEntry(race, now) || s in SprintQualifyingEntry(race, now) || s in SprintEntry(race, now) || s == RaceEntry(race, now);
    assert RaceEntry(race, now) in pushed;
    assert forall s | s in QualifyingEntry(race, now) :: s in pushed;
    assert forall s | s in SprintQualifyingEntry(race, now) :: s in pushed;
    assert forall s | s in SprintEntry(race, now) :: s in pushed;
  }

  /** Every pushed entry starts when the save route says its session
      starts, and is locked and completed by the clock. */
  lemma PushedSessionsStarts(race: CalendarRace, now: int)
    ensures forall s | s in PushedSessions(race, now) ::
      SessionStartTime(race, s.sessionType) == Some(s.startTime)
      && (s.isLocked <==> now >= s.startTime)
      && (s.isCompleted <==> now >= s.startTime + SessionLength(s.sessionType))
  {
    var pushed := PushedSessions(race, now);
    assert forall s | s in pushed ::
      s in QualifyingEntry(race, now) || s in SprintQualifyingEntry(race, now) || s in SprintEntry(race, now) || s == RaceEntry(race, now);
  }

  /** The schedule holds one entry per available session type, each locked
      at the start the save route checks and completed after the session's
      length, so completed implies locked. */
  lemma WeekendScheduleSpec(race: CalendarRace, now: int)
    ensures var sessions := BuildWeekendSchedule(race, now).sessions;
      DistinctBy(sessions, SessionTypeOf)
      && (exists s | s in sessions :: s.sessionType == Race)
      && ((exists s | s in sessions :: s.sessionType == Qualifying) <==> race.qualifying.Some?)
      && ((exists s | s in sessions :: s.sessionType == SprintQualifying) <==> race.sprint.Some? && race.sprintQualifying.Some?)
      && ((exists s | s in sessions :: s.sessionType == Sprint) <==> race.sprint.Some?)
    ensures forall s | s in BuildWeekendSchedule(race, now).sessions ::
      SessionStartTime(race, s.sessionType) == Some(s.startTime)
      && (s.isLocked <==> now >= s.startTime)
      && (s.isCompleted ==> s.isLocked)
  {
    var pushed := PushedSessions(race, now);
    var sessions := BuildWeekendSchedule(race, now).sessions;
    PushedSessionsDistinct(race, now);
    PushedSessionsTypes(race, now);
    PushedSessionsStarts(race, now);
    SortByDistinctBy(pushed, SessionStartOf, SessionTypeOf);
    forall s
      ensures s in sessions <==> s in pushed
    {
      PermutationMembers(sessions, pushed, s);
    }
  }

  // ---------------------------------------------------------------------------
  // The driver list

  /** One row of the drivers' standings as the game reads it. */
  datatype StandingRow = StandingRow(
    driverId: string,
    code: string,
    givenName: string,
    familyName: string,
    constructorName: Option<string>,
    constructorId: Option<string>,
    permanentNumber: Option<string>)

  /** A game driver from a standings row. */
  function DriverOfStanding(s: StandingRow): (d: GameDriver)
    ensures d.driverId == s.driverId && d.code == s.code
    ensures d.teamName == OrStr(s.constructorName.GetOr(""), "Unknown")
    ensures d.teamColor == GetTeamColor(s.constructorId.GetOr(""))
  {
    GameDriver(s.driverId, s.code, s.givenName, s.familyName, OrStr(s.constructorName.GetOr(""), "Unknown"),
      GetTeamColor(s.constructorId.GetOr("")), GetDriverImageUrl(s.driverId), s.permanentNumber.GetOr(""))
  }

  /** The least number of standings rows that counts as a full grid. */
  const MinimumGrid := 18

  /** `getGameDrivers`: from 2026 on, the standings when they hold at least
      18 rows, else the fixed grid; `None` stands for a failed fetch. */
  function GetGameDrivers(currentYear: int, standings: Option<seq<StandingRow>>, fallback: seq<GameDriver>): (drivers: seq<GameDriver>)
    ensures currentYear >= 2026 && standings.Some? && |standings.value| >= MinimumGrid ==>
      |drivers| == |standings.value|
      && forall i | 0 <= i < |drivers| :: drivers[i] == DriverOfStanding(standings.value[i])
    ensures !(currentYear >= 2026 && standings.Some? && |standings.value| >= MinimumGrid) ==> drivers == fallback
  {
    if currentYear >= 2026 && standings.Some? && |standings.value| >= MinimumGrid then
      MapSeq(DriverOfStanding, standings.value)
    else fallback
  }
}
