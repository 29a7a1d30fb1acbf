/** The standings page on the client: the round it opens a season on, the
    fetch of a round's standings together with the previous round's (kept
    for the position arrows), the flag of every race country, and the race
    shown in the header. */
module StandingsClient {
  import opened Common
  import opened F1Types
  import opened TimingFormat
  import opened RaceCalendar
  import opened StandingsTable

  /** This page's own country table, used for flags the server did not
      prepare. */
  const StandingsCountryCodes: map<string, string> := map[
    "Australia" := "au", "Austria" := "at", "Azerbaijan" := "az", "Bahrain" := "bh",
    "Belgium" := "be", "Brazil" := "br", "Canada" := "ca", "China" := "cn",
    "France" := "fr", "Germany" := "de", "Hungary" := "hu", "India" := "in",
    "Italy" := "it", "Japan" := "jp", "Korea" := "kr", "Malaysia" := "my",
    "Mexico" := "mx", "Monaco" := "mc", "Netherlands" := "nl", "Portugal" := "pt",
    "Qatar" := "qa", "Russia" := "ru", "Saudi Arabia" := "sa", "Singapore" := "sg",
    "Spain" := "es", "Turkey" := "tr", "UAE" := "ae", "UK" := "gb",
    "USA" := "us", "United States" := "us"]

  /** A country's two-letter flag code, "un" outside the table. */
  function CountryCode(country: string): (code: string)
    ensures country in StandingsCountryCodes ==> code == StandingsCountryCodes[country]
    ensures country !in StandingsCountryCodes ==> code == "un"
  {
    Lookup(StandingsCountryCodes, country, "un")
  }

  /** The flags for the season on show: the server's flag where it has
      one, otherwise one made from this page's table. */
  method CurrentFlags(seasonRaces: seq<CalendarRace>, countryFlags: map<string, string>) returns (flags: map<string, string>)
    ensures flags.Keys == Countries(seasonRaces)
    ensures forall c | c in flags :: flags[c] == ClientFlag(c, countryFlags, StandingsCountryCodes)
  {
    flags := ClientFlags(seasonRaces, countryFlags, StandingsCountryCodes);
  }

  /** The round a season opens on: the last completed race's round; with
      none completed (a past season read before its dates, say) the last
      race's round; "1" for an empty calendar. */
  function LastCompletedRound(races: seq<CalendarRace>, now: int): (round: string)
    ensures races == [] ==> round == "1"
  {
    var completed := CompletedRaces(races, now);
    if |completed| > 0 then completed[|completed| - 1].round
    else if |races| > 0 then races[|races| - 1].round
    else "1"
  }

  /** Which race's round that is. */
  lemma LastCompletedRoundSpec(races: seq<CalendarRace>, now: int)
    ensures (forall j | 0 <= j < |races| :: !IsCompleted(races[j], now)) && races != [] ==>
      LastCompletedRound(races, now) == races[|races| - 1].round
    ensures (exists j | 0 <= j < |races| :: IsCompleted(races[j], now)) ==>
      exists i | IsLastCompleted(races, i, now) :: LastCompletedRound(races, now) == races[i].round
  {
    FilterEmpty(races, (r: CalendarRace) => IsCompleted(r, now));
    if CompletedRaces(races, now) != [] {
      LastCompletedRace(races, now);
    }
  }

  /** Once some race is over, this page and the results and standings
      pages open on the same round; they differ only when none is. */
  lemma PickersAgreeOnceARaceIsOver(races: seq<CalendarRace>, now: int, j: nat)
    requires j < |races| && IsCompleted(races[j], now)
    ensures LastCompletedRound(races, now) == LatestCompletedRound(races, now)
  {
    LastCompletedRoundSpec(races, now);
    var a :| IsLastCompleted(races, a, now) && LastCompletedRound(races, now) == races[a].round;
    var b :| IsLastCompleted(races, b, now) && LatestCompletedRound(races, now) == races[b].round;
    assert a == b;
  }

  /** `parseInt` reads back `String(n)` for every integer. */
  lemma ParseIntOfIntToString(n: int)
    ensures ParseIntNoRadix(IntToString(n)) == Some(n)
  {
    if n < 0 {
      ParseIntNoRadixNatToString(-n);
    } else {
      ParseIntNoRadixNatToString(n);
    }
  }

  /** Whether the previous round's standings are fetched, and for which
      round text, or cleared. */
  datatype PreviousRound = FetchPrevious(round: string) | ClearPrevious

  /** `(parseInt(round) - 1).toString()`, fetched only when it reads back
      as a number above 0. A round that is not a number gives "NaN",
      which is never above 0. */
  function PreviousRoundRule(round: string): (prev: PreviousRound)
    ensures prev.FetchPrevious? <==> ParseIntNoRadix(round).Some? && ParseIntNoRadix(round).value > 1
    ensures prev.FetchPrevious? ==> ParseIntNoRadix(prev.round) == Some(ParseIntNoRadix(round).value - 1)
  {
    var current := ParseIntNoRadix(round);
    if current.None? then ClearPrevious
    else
      var text := IntToString(current.value - 1);
      ParseIntOfIntToString(current.value - 1);
      if ParseIntNoRadix(text).value > 0 then FetchPrevious(text) else ClearPrevious
  }

  /** The previous round of round `n + 1` is round `n`, for every round
      past the first; the first round has none. */
  lemma PreviousOfRound(n: nat)
    ensures PreviousRoundRule(NatToString(n + 1)) == (if n > 0 then FetchPrevious(NatToString(n)) else ClearPrevious)
  {
    ParseIntNoRadixNatToString(n + 1);
    assert IntToString(n) == NatToString(n);
  }

  /** A round written in hexadecimal, such as "0x5" in the address, is read
      as that number: round 5 fetches round "4". */
  lemma HexRoundFetchesPrevious()
    ensures PreviousRoundRule("0x5") == FetchPrevious("4")
  {
    assert "0x5" == (if false then "-" else "") + ['0', 'x'] + "5";
    assert HexValue("5") == 5 by {
      assert "5"[..0] == [];
    }
    ParseIntNoRadixHex("5", 'x', false);
    assert IntToString(4) == "4";
  }

  /** One standings request as the page sees it: refused, answered (with
      a list that may be missing), or failed on the network. */
  datatype Response = NotOk | Ok(standings: Option<seq<Standing>>) | NetworkError

  /** The standings an accepted answer installs: its list, or none. */
  function Installed(r: Response): seq<Standing>
    requires r.Ok?
  {
    r.standings.GetOr([])
  }

  /** The standings shown by the page and the previous round's standings
      behind the arrows. */
  class StandingsView {
    var driverStandings: seq<Standing>
    var constructorStandings: seq<Standing>
    var prevDriverStandings: seq<Standing>
    var prevConstructorStandings: seq<Standing>
    var loading: bool

    constructor (drivers: seq<Standing>, constructors: seq<Standing>)
      ensures driverStandings == drivers && constructorStandings == constructors
      ensures prevDriverStandings == [] && prevConstructorStandings == [] && !loading
    {
      driverStandings := drivers;
      constructorStandings := constructors;
      prevDriverStandings := [];
      prevConstructorStandings := [];
      loading := false;
    }

    /** `fetchStandings` once its four answers are in (the last two only
        asked for when there is a previous round): an accepted answer
        replaces its list, a refused one keeps it; a network failure of
        either current request leaves everything as it was; without a
        previous round both previous lists are cleared. */
    method FetchStandings(round: string, drivers: Response, constructors: Response,
                          prevDrivers: Response, prevConstructors: Response)
      modifies this
      ensures !loading
      ensures drivers.NetworkError? || constructors.NetworkError? ==>
        driverStandings == old(driverStandings) && constructorStandings == old(constructorStandings)
        && prevDriverStandings == old(prevDriverStandings) && prevConstructorStandings == old(prevConstructorStandings)
      ensures !drivers.NetworkError? && !constructors.NetworkError? ==>
        driverStandings == (if drivers.Ok? then Installed(drivers) else old(driverStandings))
        && constructorStandings == (if constructors.Ok? then Installed(constructors) else old(constructorStandings))
      ensures !drivers.NetworkError? && !constructors.NetworkError? && PreviousRoundRule(round).ClearPrevious? ==>
        prevDriverStandings == [] && prevConstructorStandings == []
      ensures !drivers.NetworkError? && !constructors.NetworkError? && PreviousRoundRule(round).FetchPrevious? ==>
        if prevDrivers.NetworkError? || prevConstructors.NetworkError? then
          prevDriverStandings == old(prevDriverStandings) && prevConstructorStandings == old(prevConstructorStandings)
        else
          prevDriverStandings == (if prevDrivers.Ok? then Installed(prevDrivers) else old(prevDriverStandings))
          && prevConstructorStandings == (if prevConstructors.Ok? then Installed(prevConstructors) else old(prevConstructorStandings))
    {
      loading := true;
      if drivers.NetworkError? || constructors.NetworkError? {
        loading := false;
        return;
      }
      if drivers.Ok? {
        driverStandings := Installed(drivers);
      }
      if constructors.Ok? {
        constructorStandings := Installed(constructors);
      }
      var prev := PreviousRoundRule(round);
      if prev.FetchPrevious? {
        if !prevDrivers.NetworkError? && !prevConstructors.NetworkError? {
          if prevDrivers.Ok? {
            prevDriverStandings := Installed(prevDrivers);
          }
          if prevConstructors.Ok? {
            prevConstructorStandings := Installed(prevConstructors);
          }
        }
      } else {
        prevDriverStandings := [];
        prevConstructorStandings := [];
      }
      loading := false;
    }
  }

  /** The first round has no round before it. */
  lemma FirstRoundHasNoPrevious()
    ensures PreviousRoundRule("1") == ClearPrevious
  {
    ParseIntNoRadixNatToString(1);
    assert NatToString(1) == "1";
  }

  /** On the first round there is nothing to compare with, so no entry
      shows an arrow after a completed fetch. */
  lemma FirstRoundShowsNoArrows(current: string, id: string, kind: TableKind)
    ensures PreviousRoundRule("1") == ClearPrevious
    ensures PositionDelta(current, Some([]), id, kind) == NoDelta
    ensures DeltaText(PositionDelta(current, Some([]), id, kind)) == ""
  {
    FirstRoundHasNoPrevious();
  }

  /** The header's race: the season's race with the selected round, if
      any. */
  function SelectedRace(seasonRaces: seq<CalendarRace>, selectedRound: string): (race: Option<CalendarRace>)
    ensures race.Some? ==> race.value in seasonRaces && race.value.round == selectedRound
    ensures race.None? <==> forall j | 0 <= j < |seasonRaces| :: seasonRaces[j].round != selectedRound
  {
    FindFirst(seasonRaces, (r: CalendarRace) => r.round == selectedRound)
  }
}
