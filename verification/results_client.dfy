/** The race results page on the client: the status badge of the race on
    show (upcoming, live for three hours from its start, then completed),
    the round a season opens on, the flag of every race country, and the
    race shown when the calendar lacks the selected round. */
module ResultsClient {
  import opened Common
  import opened F1Types
  import opened RaceCalendar

  datatype RaceStatus = Upcoming | Live | Completed

  /** Three hours: how long after its start a race counts as live. */
  const LiveWindow := 3 * HourMs

  /** The race's start: its day at its time, or at 14:00:00Z. */
  function RaceStart(r: CalendarRace): (start: int)
    ensures r.time.None? ==> start == r.date + DefaultRaceTime
    ensures r.time.Some? ==> start == r.date + r.time.value
  {
    r.date + r.time.GetOr(DefaultRaceTime)
  }

  /** `getStatus`: upcoming with no race or before the start, live from
      the start to three hours after it (both ends included), completed
      after that. */
  function Status(race: Option<CalendarRace>, now: int): (status: RaceStatus)
    ensures race.None? ==> status == Upcoming
    ensures race.Some? ==>
      (status == Upcoming <==> now < RaceStart(race.value))
      && (status == Live <==> RaceStart(race.value) <= now <= RaceStart(race.value) + LiveWindow)
      && (status == Completed <==> RaceStart(race.value) + LiveWindow < now)
  {
    if race.None? then Upcoming
    else
      var start := RaceStart(race.value);
      if now < start then Upcoming
      else if now >= start && now <= start + LiveWindow then Live
      else Completed
  }

  function StatusRank(s: RaceStatus): nat {
    match s
    case Upcoming => 0
    case Live => 1
    case Completed => 2
  }

  /** As the clock moves on, a race's status only moves forward: upcoming,
      then live, then completed, never back. */
  lemma StatusMovesForward(race: Option<CalendarRace>, earlier: int, later: int)
    requires earlier <= later
    ensures StatusRank(Status(race, earlier)) <= StatusRank(Status(race, later))
  {
  }

  /** For a race without a time of day, the day's end (the cutoff the round
      pickers use) lies after the live window, so a race they count as
      over shows as completed. */
  lemma OverRaceIsCompleted(race: CalendarRace, now: int)
    requires race.time.None? && IsCompleted(race, now)
    ensures Status(Some(race), now) == Completed
  {
  }

  /** With a time of day the two clocks disagree: the pickers' cutoff is
      then the start itself, so a millisecond after its start a race is
      already over for them while its badge says live. */
  lemma OverRaceCanBeLive(race: CalendarRace)
    requires race.time.Some?
    ensures var now := RaceStart(race) + 1;
      IsCompleted(race, now) && Status(Some(race), now) == Live
  {
  }

  /** The badge's style for each status. */
  function StatusClasses(status: RaceStatus): string {
    if status == Completed then "bg-emerald-500/10 border-emerald-400/30 text-emerald-300"
    else if status == Live then "bg-red-500/10 border-red-400/40 text-red-300"
    else "bg-amber-500/10 border-amber-400/30 text-amber-300"
  }

  /** Each status has a style of its own: emerald, red or amber. */
  lemma StatusClassesDistinct(a: RaceStatus, b: RaceStatus)
    requires a != b
    ensures StatusClasses(a) != StatusClasses(b)
  {
    assert |StatusClasses(a)| != |StatusClasses(b)|;
  }

  /** This page's own country table, used for flags the server did not
      prepare; it lacks India, Korea and Malaysia. */
  const ResultsCountryCodes: map<string, string> := map[
    "Australia" := "au", "Austria" := "at", "Azerbaijan" := "az", "Bahrain" := "bh",
    "Belgium" := "be", "Brazil" := "br", "Canada" := "ca", "China" := "cn",
    "France" := "fr", "Germany" := "de", "Hungary" := "hu", "Italy" := "it",
    "Japan" := "jp", "Mexico" := "mx", "Monaco" := "mc", "Netherlands" := "nl",
    "Portugal" := "pt", "Qatar" := "qa", "Russia" := "ru", "Saudi Arabia" := "sa",
    "Singapore" := "sg", "Spain" := "es", "Turkey" := "tr", "UAE" := "ae",
    "UK" := "gb", "USA" := "us", "United States" := "us"]

  /** A country's two-letter flag code, "un" outside the table. */
  function CountryCode(country: string): (code: string)
    ensures country in ResultsCountryCodes ==> code == ResultsCountryCodes[country]
    ensures country !in ResultsCountryCodes ==> code == "un"
  {
    Lookup(ResultsCountryCodes, country, "un")
  }

  /** The flags for the season on show: the server's flag where it has
      one, otherwise one made from this page's table. */
  method CurrentFlags(seasonRaces: seq<CalendarRace>, countryFlags: map<string, string>) returns (flags: map<string, string>)
    ensures flags.Keys == Countries(seasonRaces)
    ensures forall c | c in flags :: flags[c] == ClientFlag(c, countryFlags, ResultsCountryCodes)
  {
    flags := ClientFlags(seasonRaces, countryFlags, ResultsCountryCodes);
  }

  /** The race shown: the season's race with the selected round, else the
      race last loaded with the results, if any. */
  function SelectedRace(seasonRaces: seq<CalendarRace>, selectedRound: string, loaded: Option<CalendarRace>): (race: Option<CalendarRace>)
    ensures (exists j | 0 <= j < |seasonRaces| :: seasonRaces[j].round == selectedRound) ==>
      race.Some? && race.value in seasonRaces && race.value.round == selectedRound
    ensures (forall j | 0 <= j < |seasonRaces| :: seasonRaces[j].round != selectedRound) ==> race == loaded
  {
    var found := FindFirst(seasonRaces, (r: CalendarRace) => r.round == selectedRound);
    if found.Some? then found else loaded
  }

  /** With nothing to show the badge reads upcoming, whatever the clock. */
  lemma NothingShownIsUpcoming(seasonRaces: seq<CalendarRace>, selectedRound: string, now: int)
    requires forall j | 0 <= j < |seasonRaces| :: seasonRaces[j].round != selectedRound
    ensures Status(SelectedRace(seasonRaces, selectedRound, None), now) == Upcoming
  {
  }
}
