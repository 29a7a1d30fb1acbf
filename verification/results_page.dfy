/** The results page on the server: the calendar (an empty one when its
    request fails), the round the page opens on, a flag for every race
    country, and the seasons offered. */
module ResultsPage {
  import opened Common
  import opened F1Types
  import opened RaceCalendar

  datatype PageData = PageData(
    races: seq<CalendarRace>,
    initialRound: string,
    countryFlags: map<string, string>,
    availableSeasons: seq<string>)

  /** The page's data from the calendar request's outcome, the current
      year and the clock. */
  method Load(calendar: Option<seq<CalendarRace>>, currentYear: int, now: int) returns (page: PageData)
    ensures page.races == calendar.GetOr([])
    ensures page.initialRound == LatestCompletedRound(page.races, now)
    ensures page.countryFlags.Keys == Countries(page.races)
    ensures forall c | c in page.countryFlags :: page.countryFlags[c] == GetFlagUrl(c)
    ensures page.availableSeasons == AvailableSeasons(currentYear)
    ensures calendar.None? ==> page.initialRound == "1" && page.countryFlags == map[]
  {
    var races := calendar.GetOr([]);
    var initialRound := LatestCompletedRound(races, now);
    var flags := CountryFlagMap(races);
    page := PageData(races, initialRound, flags, AvailableSeasons(currentYear));
  }
}
