/** Rules over a season's race calendar shared by the results and standings
    pages: when a race counts as over, which round a page opens on, the list
    of seasons offered, and the country flag of every race. Dates are integer
    milliseconds (the day) plus an optional time of day; the clock is a
    parameter. */
module RaceCalendar {
  import opened Common
  import opened F1Types

  /** The moment a race counts as over: its day at its time, or at
      23:59:59Z when the calendar has no time. */
  function RaceCutoff(r: CalendarRace): (cutoff: int)
    ensures r.time.None? ==> cutoff == r.date + EndOfDayTime
    ensures r.time.Some? ==> cutoff == r.date + r.time.value
  {
    r.date + r.time.GetOr(EndOfDayTime)
  }

  /** The race's cutoff lies strictly before `now`. */
  predicate IsCompleted(r: CalendarRace, now: int) {
    RaceCutoff(r) < now
  }

  function CompletedRaces(races: seq<CalendarRace>, now: int): seq<CalendarRace> {
    Filter(races, (r: CalendarRace) => IsCompleted(r, now))
  }

  /** Race `i` is completed and no later race is. */
  ghost predicate IsLastCompleted(races: seq<CalendarRace>, i: int, now: int) {
    0 <= i < |races| && IsCompleted(races[i], now)
    && forall j | i < j < |races| :: !IsCompleted(races[j], now)
  }

  /** The last element that passes a filter is the last element of the
      filtered list, and nothing after it passes. */
  lemma {:induction false} FilterLast<T>(s: seq<T>, p: T -> bool)
    requires Filter(s, p) != []
    ensures exists i | 0 <= i < |s| ::
      (s[i] == Filter(s, p)[|Filter(s, p)| - 1] && p(s[i]) && forall j | i < j < |s| :: !p(s[j]))
    decreases |s|
  {
    var x := s[|s| - 1];
    if p(x) {
      assert s[|s| - 1] == Filter(s, p)[|Filter(s, p)| - 1];
    } else {
      var prefix := s[..|s| - 1];
      assert Filter(s, p) == Filter(prefix, p);
      FilterLast(prefix, p);
      var i :| 0 <= i < |prefix| && prefix[i] == Filter(prefix, p)[|Filter(prefix, p)| - 1] && p(prefix[i])
        && forall j | i < j < |prefix| :: !p(prefix[j]);
      assert s[i] == prefix[i];
      assert forall j | i < j < |s| :: !p(s[j]) by {
        forall j | i < j < |s| ensures !p(s[j]) {
          if j < |s| - 1 {
            assert s[j] == prefix[j];
          }
        }
      }
    }
  }

  /** A filter is empty exactly when nothing passes it. */
  lemma FilterEmpty<T>(s: seq<T>, p: T -> bool)
    ensures Filter(s, p) == [] <==> forall j | 0 <= j < |s| :: !p(s[j])
  {
    if Filter(s, p) != [] {
      assert Filter(s, p)[0] in Filter(s, p);
    } else {
      forall j | 0 <= j < |s| ensures !p(s[j]) {
        assert s[j] in s;
      }
    }
  }

  /** The last completed race is the last race of the filtered list. */
  lemma LastCompletedRace(races: seq<CalendarRace>, now: int)
    requires CompletedRaces(races, now) != []
    ensures exists i | IsLastCompleted(races, i, now) ::
      races[i] == CompletedRaces(races, now)[|CompletedRaces(races, now)| - 1]
  {
    FilterLast(races, (r: CalendarRace) => IsCompleted(r, now));
    var i :| 0 <= i < |races| && races[i] == CompletedRaces(races, now)[|CompletedRaces(races, now)| - 1]
      && IsCompleted(races[i], now) && forall j | i < j < |races| :: !IsCompleted(races[j], now);
    assert IsLastCompleted(races, i, now);
  }

  /** The round a results or standings page opens on: the last completed
      race's round; with none completed the first race's round; "1" for an
      empty calendar. */
  function LatestCompletedRound(races: seq<CalendarRace>, now: int): (round: string)
    ensures races == [] ==> round == "1"
    ensures (forall j | 0 <= j < |races| :: !IsCompleted(races[j], now)) && races != [] ==>
      round == races[0].round
    ensures (exists j | 0 <= j < |races| :: IsCompleted(races[j], now)) ==>
      exists i | IsLastCompleted(races, i, now) :: round == races[i].round
  {
    var completed := CompletedRaces(races, now);
    FilterEmpty(races, (r: CalendarRace) => IsCompleted(r, now));
    if |completed| > 0 then
      LastCompletedRace(races, now);
      completed[|completed| - 1].round
    else if |races| > 0 then races[0].round
    else "1"
  }

  /** The seasons offered: the current year down to 2000, as decimal text;
      none when the year is before 2000. */
  function AvailableSeasons(currentYear: int): (seasons: seq<string>)
    ensures |seasons| == if currentYear >= 1999 then currentYear - 1999 else 0
    ensures forall i | 0 <= i < |seasons| :: currentYear - i >= 2000 && ParseNat(seasons[i]) == Some(currentYear - i)
  {
    var n := if currentYear >= 1999 then currentYear - 1999 else 0;
    var seasons := seq(n, i requires 0 <= i < n => NatToString(currentYear - i));
    forall i | 0 <= i < n ensures ParseNat(seasons[i]) == Some(currentYear - i) {
      ParseNatToString(currentYear - i);
    }
    seasons
  }

  /** The list runs from the current year down to 2000 with every season
      later than the next, so no season is offered twice. */
  lemma SeasonsDescend(currentYear: int)
    requires currentYear >= 2000
    ensures var seasons := AvailableSeasons(currentYear);
      ParseNat(seasons[0]) == Some(currentYear)
      && ParseNat(seasons[|seasons| - 1]) == Some(2000)
      && (forall i, j | 0 <= i < j < |seasons| :: ParseNat(seasons[i]).value > ParseNat(seasons[j]).value)
      && Distinct(seasons)
  {
    var seasons := AvailableSeasons(currentYear);
    forall i, j | 0 <= i < j < |seasons| ensures seasons[i] != seasons[j] {
      assert ParseNat(seasons[i]) != ParseNat(seasons[j]);
    }
  }

  /** The countries of a calendar's races. */
  function Countries(races: seq<CalendarRace>): set<string> {
    set r | r in races :: r.circuit.country
  }

  /** The server's flag map: one entry per race country, holding that
      country's flag picture. */
  method CountryFlagMap(races: seq<CalendarRace>) returns (flags: map<string, string>)
    ensures flags.Keys == Countries(races)
    ensures forall c | c in flags :: flags[c] == GetFlagUrl(c)
  {
    flags := map[];
    for i := 0 to |races|
      invariant flags.Keys == Countries(races[..i])
      invariant forall c | c in flags :: flags[c] == GetFlagUrl(c)
    {
      var country := races[i].circuit.country;
      flags := flags[country := GetFlagUrl(country)];
      assert races[..i + 1] == races[..i] + [races[i]];
    }
    assert races[..|races|] == races;
  }

  /** The flag a client page shows for a country: the server's flag when it
      has a non-empty one, otherwise the flag picture for the code the
      page's own table gives, "un" for countries outside it. */
  function ClientFlag(country: string, serverFlags: map<string, string>, codes: map<string, string>): (url: string)
    ensures country in serverFlags && serverFlags[country] != "" ==> url == serverFlags[country]
    ensures !(country in serverFlags && serverFlags[country] != "") ==>
      StartsWith(url, FlagPrefix)
      && (country !in codes || codes[country] == "" ==> url == FlagPrefix + "un.png")
      && (country in codes && codes[country] != "" ==> url == FlagPrefix + codes[country] + ".png")
  {
    Lookup(serverFlags, country, FlagPrefix + Lookup(codes, country, "un") + ".png")
  }

  /** The client's flag map for the season on show: one entry per race
      country. */
  method ClientFlags(races: seq<CalendarRace>, serverFlags: map<string, string>, codes: map<string, string>)
    returns (flags: map<string, string>)
    ensures flags.Keys == Countries(races)
    ensures forall c | c in flags :: flags[c] == ClientFlag(c, serverFlags, codes)
  {
    flags := map[];
    for i := 0 to |races|
      invariant flags.Keys == Countries(races[..i])
      invariant forall c | c in flags :: flags[c] == ClientFlag(c, serverFlags, codes)
    {
      var country := races[i].circuit.country;
      if country in serverFlags && serverFlags[country] != "" {
        flags := flags[country := serverFlags[country]];
      } else {
        flags := flags[country := FlagPrefix + Lookup(codes, country, "un") + ".png"];
      }
      assert races[..i + 1] == races[..i] + [races[i]];
    }
    assert races[..|races|] == races;
  }

  /** For the season the server prepared, the client shows the server's
      flag for every race country. */
  lemma ServerSeasonFlags(races: seq<CalendarRace>, serverFlags: map<string, string>, codes: map<string, string>, c: string)
    requires serverFlags.Keys == Countries(races)
    requires forall k | k in serverFlags :: serverFlags[k] == GetFlagUrl(k)
    requires c in Countries(races)
    ensures ClientFlag(c, serverFlags, codes) == GetFlagUrl(c)
  {
    assert StartsWith(GetFlagUrl(c), FlagPrefix);
  }
}
