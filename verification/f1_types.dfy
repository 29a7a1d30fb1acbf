/** Records exchanged with the OpenF1 and Jolpica feeds and with the game
    tables, the fixed lookup tables (team colours, country codes, circuit
    drawings, team logos, driver portraits) and the two scoring tables.
    Timestamps are integer milliseconds since the epoch; a calendar date is
    the millisecond at which its day starts and a time of day is the
    milliseconds into that day. */
module F1Types {
  import opened Common

  // ---------------------------------------------------------------------------
  // OpenF1 records (only the fields the application reads)

  datatype Session = Session(
    sessionKey: int,
    sessionName: string,
    sessionType: string,
    dateStart: int,
    dateEnd: int,
    meetingKey: int)

  datatype Driver = Driver(
    driverNumber: int,
    broadcastName: Option<string>,
    nameAcronym: string,
    teamName: string,
    teamColour: string)

  datatype Position = Position(driverNumber: int, position: int, date: int)

  /** Lap and sector durations in milliseconds; `None` is a null field. */
  datatype Lap = Lap(
    driverNumber: int,
    lapNumber: int,
    lapDuration: Option<int>,
    sector1: Option<int>,
    sector2: Option<int>,
    sector3: Option<int>,
    dateStart: int)

  datatype Stint = Stint(driverNumber: int, stintNumber: int, compound: string)

  datatype Pit = Pit(driverNumber: int, lapNumber: int, date: int)

  datatype RaceControl = RaceControl(date: int, category: string, message: string)

  // Field accessors, passed to the generic reducers as the source passes arrows.
  function PositionDriver(p: Position): int { p.driverNumber }
  function PositionDate(p: Position): int { p.date }
  function PositionValue(p: Position): int { p.position }
  function LapDriver(l: Lap): int { l.driverNumber }
  function LapNumber(l: Lap): int { l.lapNumber }
  function StintDriver(s: Stint): int { s.driverNumber }
  function StintNumber(s: Stint): int { s.stintNumber }
  function PitDriver(p: Pit): int { p.driverNumber }
  function SessionStart(s: Session): int { s.dateStart }

  // ---------------------------------------------------------------------------
  // Jolpica records

  /** A session of a race weekend: its day and its time of day. */
  datatype SessionTime = SessionTime(date: int, time: int)

  datatype Circuit = Circuit(circuitId: string, circuitName: string, locality: string, country: string)

  /** A calendar entry; `time` is `None` when the feed omits it or sends "". */
  datatype CalendarRace = CalendarRace(
    season: string,
    round: string,
    raceName: string,
    circuit: Circuit,
    date: int,
    time: Option<int>,
    qualifying: Option<SessionTime>,
    sprint: Option<SessionTime>,
    sprintQualifying: Option<SessionTime>)

  // ---------------------------------------------------------------------------
  // Game records

  datatype GameSessionType = Qualifying | Race | SprintQualifying | Sprint

  datatype GameDriver = GameDriver(
    driverId: string,
    code: string,
    firstName: string,
    lastName: string,
    teamName: string,
    teamColor: string,
    headshotUrl: string,
    number: string)

  datatype Prediction = Prediction(
    userId: string,
    season: int,
    round: int,
    sessionType: GameSessionType,
    pole: Option<string>,
    p1: Option<string>,
    p2: Option<string>,
    p3: Option<string>,
    isDefault: bool)

  datatype Scoring = Scoring(pole: nat, p1: nat, p2: nat, p3: nat, bonus: nat)

  const RaceScoring := Scoring(25, 25, 18, 15, 10)
  const SprintScoring := Scoring(8, 8, 7, 6, 5)

  const HourMs := 3600000
  const DayMs := 86400000

  /** "14:00:00Z", the race start assumed when the calendar has no time. */
  const DefaultRaceTime := 14 * HourMs

  /** "23:59:59Z", the end of the race day assumed by the round pickers. */
  const EndOfDayTime := 23 * HourMs + 59 * 60000 + 59 * 1000

  // ---------------------------------------------------------------------------
  // Lookup tables

  const TeamColors: map<string, string> := map[
    "red_bull" := "#3671C6", "ferrari" := "#E8002D", "mercedes" := "#27F4D2",
    "mclaren" := "#FF8000", "aston_martin" := "#229971", "alpine" := "#FF87BC",
    "williams" := "#64C4FF", "rb" := "#6692FF", "sauber" := "#52E252",
    "haas" := "#B6BABD", "alphatauri" := "#6692FF", "alfa" := "#52E252"]

  const CountryCodes: map<string, string> := map[
    "Australia" := "au", "Austria" := "at", "Azerbaijan" := "az", "Bahrain" := "bh",
    "Belgium" := "be", "Brazil" := "br", "Canada" := "ca", "China" := "cn",
    "France" := "fr", "Germany" := "de", "Hungary" := "hu", "Italy" := "it",
    "Japan" := "jp", "Mexico" := "mx", "Monaco" := "mc", "Netherlands" := "nl",
    "Portugal" := "pt", "Qatar" := "qa", "Russia" := "ru", "Saudi Arabia" := "sa",
    "Singapore" := "sg", "Spain" := "es", "Turkey" := "tr", "UAE" := "ae",
    "UK" := "gb", "United Kingdom" := "gb", "USA" := "us", "United States" := "us",
    "Las Vegas" := "us"]

  const CircuitSvgMap: map<string, string> := map[
    "albert_park" := "melbourne", "bahrain" := "bahrain", "shanghai" := "shanghai",
    "suzuka" := "suzuka", "miami" := "miami", "imola" := "imola", "monaco" := "monaco",
    "villeneuve" := "montreal", "catalunya" := "catalunya", "red_bull_ring" := "spielberg",
    "silverstone" := "silverstone", "hungaroring" := "hungaroring",
    "spa" := "spa-francorchamps", "zandvoort" := "zandvoort", "monza" := "monza",
    "marina_bay" := "marina-bay", "losail" := "lusail", "americas" := "austin",
    "rodriguez" := "mexico-city", "interlagos" := "interlagos", "vegas" := "las-vegas",
    "yas_marina" := "yas-marina", "jeddah" := "jeddah", "baku" := "baku"]

  const DriverImageMap: map<string, string> := map[
    "max_verstappen" := "MAXVER01_Max_Verstappen/maxver01",
    "norris" := "LANNOR01_Lando_Norris/lannor01",
    "russell" := "GEORUS01_George_Russell/georus01",
    "leclerc" := "CHALEC01_Charles_Leclerc/chalec01",
    "sainz" := "CARSAI01_Carlos_Sainz/carsai01",
    "hamilton" := "LEWHAM01_Lewis_Hamilton/lewham01",
    "piastri" := "OSCPIA01_Oscar_Piastri/oscpia01",
    "alonso" := "FERALO01_Fernando_Alonso/feralo01",
    "stroll" := "LANSTR01_Lance_Stroll/lanstr01",
    "gasly" := "PIEGAS01_Pierre_Gasly/piegas01",
    "ocon" := "ESTOCO01_Esteban_Ocon/estoco01",
    "albon" := "ALEALB01_Alexander_Albon/alealb01",
    "tsunoda" := "YUKTSU01_Yuki_Tsunoda/yuktsu01",
    "ricciardo" := "DANRIC01_Daniel_Ricciardo/danric01",
    "hulkenberg" := "NICHUL01_Nico_Hulkenberg/nichul01",
    "perez" := "SERPER01_Sergio_Perez/serper01",
    "magnussen" := "KEVMAG01_Kevin_Magnussen/kevmag01",
    "bottas" := "VALBOT01_Valtteri_Bottas/valbot01",
    "zhou" := "GUAZHO01_Guanyu_Zhou/guazho01",
    "sargeant" := "LOGSAR01_Logan_Sargeant/logsar01",
    "lawson" := "LIALAW01_Liam_Lawson/lialaw01",
    "bearman" := "OLIBEA01_Oliver_Bearman/olibea01",
    "colapinto" := "FRANCOL01_Franco_Colapinto/francol01",
    "doohan" := "JACDOO01_Jack_Doohan/jacdoo01",
    "hadjar" := "ISAHAD01_Isack_Hadjar/isahad01",
    "antonelli" := "ANDANT01_Andrea_Kimi_Antonelli/andant01",
    "bortoleto" := "GABBOT01_Gabriel_Bortoleto/gabbot01"]

  const LogoBase := "https://media.formula1.com/image/upload/c_lfill,w_40/q_auto/v1740000000/common/f1/2025/"

  const TeamLogoMap: map<string, string> := map[
    "red_bull" := LogoBase + "redbullracing/2025redbullracinglogowhite.webp",
    "mercedes" := LogoBase + "mercedes/2025mercedeslogowhite.webp",
    "ferrari" := LogoBase + "ferrari/2025ferrarilogowhite.webp",
    "mclaren" := LogoBase + "mclaren/2025mclarenlogowhite.webp",
    "aston_martin" := LogoBase + "astonmartin/2025astonmartinlogowhite.webp",
    "alpine" := LogoBase + "alpine/2025alpinelogowhite.webp",
    "williams" := LogoBase + "williams/2025williamslogowhite.webp",
    "sauber" := LogoBase + "kicksauber/2025kicksauberlogowhite.webp",
    "rb" := LogoBase + "rb/2025rblogowhite.webp",
    "haas" := LogoBase + "haas/2025haaslogowhite.webp",
    "alphatauri" := LogoBase + "rb/2025rblogowhite.webp",
    "alfa" := LogoBase + "kicksauber/2025kicksauberlogowhite.webp"]

  /** `table[key] || fallback` for a string-valued record. */
  function Lookup(table: map<string, string>, key: string, fallback: string): string {
    if key in table && table[key] != "" then table[key] else fallback
  }

  const FlagPrefix := "https://flagcdn.com/w40/"

  /** The flag picture for a country; countries outside the table get the
      United Nations flag. */
  function GetFlagUrl(country: string): (url: string)
    ensures StartsWith(url, FlagPrefix)
    ensures country !in CountryCodes ==> url == FlagPrefix + "un.png"
    ensures country in CountryCodes ==> url == FlagPrefix + CountryCodes[country] + ".png"
  {
    FlagPrefix + Lookup(CountryCodes, country, "un") + ".png"
  }

  /** Every colour the table holds is a seven-character `#RRGGBB` code. */
  predicate IsHexColor(c: string) {
    |c| == 7 && c[0] == '#'
  }

  /** A constructor's colour, grey for constructors outside the table. */
  function GetTeamColor(constructorId: string): (color: string)
    ensures IsHexColor(color)
    ensures constructorId in TeamColors ==> color == TeamColors[constructorId]
    ensures constructorId !in TeamColors ==> color == "#888888"
  {
    Lookup(TeamColors, constructorId, "#888888")
  }

  /** The 2026 newcomers are not in the colour table and fall back to grey. */
  lemma NewTeamsAreGrey()
    ensures GetTeamColor("audi") == "#888888"
    ensures GetTeamColor("cadillac") == "#888888"
    ensures GetTeamColor("racing_bulls") == "#888888"
  {
  }

  /** The track drawing for a circuit, or "" for a circuit without one. */
  function GetCircuitSvgPath(circuitId: string): (path: string)
    ensures path == "" <==> circuitId !in CircuitSvgMap
    ensures circuitId in CircuitSvgMap ==> path == "/tracks/" + CircuitSvgMap[circuitId] + ".svg"
  {
    var file := Lookup(CircuitSvgMap, circuitId, "");
    if file == "" then "" else "/tracks/" + file + ".svg"
  }

  /** A constructor's logo, or "" for a constructor without one. */
  function GetTeamLogoUrl(constructorId: string): (url: string)
    ensures url == "" <==> constructorId !in TeamLogoMap
    ensures constructorId in TeamLogoMap ==> StartsWith(url, LogoBase)
    ensures constructorId in TeamLogoMap ==> url == TeamLogoMap[constructorId]
  {
    Lookup(TeamLogoMap, constructorId, "")
  }

  /** The text before the first `sep` (all of `s` when `sep` is absent). */
  function BeforeFirst(s: string, sep: char): (head: string)
    ensures StartsWith(s, head)
    ensures sep !in head
    ensures |head| < |s| ==> s[|head|] == sep
  {
    if s == [] || s[0] == sep then [] else [s[0]] + BeforeFirst(s[1..], sep)
  }

  const PortraitPrefix := "https://media.formula1.com/d_driver_fallback_image.png/content/dam/fom-website/drivers/"

  /** A driver's portrait: the folder is the first letter of the segment
      before "/" in the table entry. */
  function GetDriverImageUrl(driverId: string): (url: string)
    ensures url == "" <==> driverId !in DriverImageMap
    ensures driverId in DriverImageMap ==>
      var path := DriverImageMap[driverId];
      url == PortraitPrefix + FirstChar(BeforeFirst(path, '/')) + "/" + path + ".png.transform/2col/image.png"
  {
    var path := Lookup(DriverImageMap, driverId, "");
    if path == "" then ""
    else PortraitPrefix + FirstChar(BeforeFirst(path, '/')) + "/" + path + ".png.transform/2col/image.png"
  }

  /** `s.charAt(0)`: the first character, or "" for the empty string. */
  function FirstChar(s: string): (c: string)
    ensures |c| <= 1 && StartsWith(s, c)
    ensures s != [] ==> |c| == 1
  {
    if s == [] then "" else [s[0]]
  }

  /** Both scoring tables pay more for an exact place than for the bonus,
      and a sprint pays less than a race in every category. */
  lemma ScoringTables()
    ensures RaceScoring.p3 > RaceScoring.bonus && SprintScoring.p3 > SprintScoring.bonus
    ensures SprintScoring.pole < RaceScoring.pole && SprintScoring.p1 < RaceScoring.p1
    ensures SprintScoring.p2 < RaceScoring.p2 && SprintScoring.p3 < RaceScoring.p3
    ensures SprintScoring.bonus < RaceScoring.bonus
  {
  }
}
