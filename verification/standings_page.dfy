/** The standings page on the server: the calendar and the two current
    standings lists (each an empty list when its request fails), the round
    the page opens on, a flag for every race country, and the seasons
    offered. */
module StandingsPage {
  import opened Common
  import opened F1Types
  import opened RaceCalendar
  import opened StandingsTable

  datatype PageData = PageData(
    races: seq<CalendarRace>,
    driverStandings: seq<Standing>,
    constructorStandings: seq<Standing>,
    initialRound: string,
    countryFlags: map<string, string>,
    availableSeasons: seq<string>)

  /** The page's data from the three requests' outcomes, the current year
      and the clock; a failed request never stops the page. */
  method Load(calendar: Option<seq<CalendarRace>>, drivers: Option<seq<Standing>>,
              constructors: Option<seq<Standing>>, currentYear: int, now: int)
    returns (page: PageData)
    ensures page.races == calendar.GetOr([])
    ensures page.driverStandings == drivers.GetOr([]) && page.constructorStandings == constructors.GetOr([])
    ensures page.initialRound == LatestCompletedRound(page.races, now)
    ensures page.countryFlags.Keys == Countries(page.races)
    ensures forall c | c in page.countryFlags :: page.countryFlags[c] == GetFlagUrl(c)
    ensures page.availableSeasons == AvailableSeasons(currentYear)
    ensures calendar.None? ==> page.initialRound == "1" && page.countryFlags == map[]
  {
    var races := calendar.GetOr([]);
    var completed := CompletedRaces(races, now);
    var latestRound := if |completed| > 0 then completed[|completed| - 1].round
      else if |races| > 0 then races[0].round else "1";
    var flags := CountryFlagMap(races);
    page := PageData(races, drivers.GetOr([]), constructors.GetOr([]), latestRound, flags, AvailableSeasons(currentYear));
  }
}
