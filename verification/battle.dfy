/** The championship battle chart's data: for a season, the drivers of the
    latest standings that exist, one row per calendar race holding each
    driver's points after that round, and the three drivers shown first.
    The calendar and the standings requests are parameters; a failed request
    reads as an empty list. */
module Battle {
  import opened Common
  import opened F1Types

  // ---------------------------------------------------------------------------
  // `parseFloat`

  function Pow10(k: nat): (p: nat)
    ensures p >= 1
  {
    if k == 0 then 1 else 10 * Pow10(k - 1)
  }

  /** Digits, then an optional point and more digits, read as a number;
      `None` when no digit is found. */
  function ParseUnsigned(body: string): Option<real> {
    var whole := DigitPrefix(body);
    var rest := body[|whole|..];
    var fraction := if rest != [] && rest[0] == '.' then DigitPrefix(rest[1..]) else [];
    if whole == [] && fraction == [] then None
    else Some(DigitsValue(whole) as real + (DigitsValue(fraction) as real) / (Pow10(|fraction|) as real))
  }

  /** `Number.parseFloat(s)` on decimal text: leading whitespace skipped,
      an optional sign, then digits with an optional fraction; `None`
      stands for NaN, when no digit is found. */
  function ParseFloat(s: string): Option<real> {
    var t := TrimStart(s);
    if t != [] && t[0] == '-' then
      (match ParseUnsigned(t[1..]) case None => None case Some(v) => Some(-v))
    else if t != [] && t[0] == '+' then ParseUnsigned(t[1..])
    else ParseUnsigned(t)
  }

  /** `parsePoints`: the number the text starts with, 0 when there is none. */
  function ParsePoints(value: string): real {
    ParseFloat(value).GetOr(0.0)
  }

  /** The digit prefix of digits followed by a non-digit is those digits. */
  lemma {:induction false} DigitPrefixStops(a: string, rest: string)
    requires AllDigits(a)
    requires rest == [] || !IsDigit(rest[0])
    ensures DigitPrefix(a + rest) == a
    decreases |a|
  {
    if a != [] {
      assert (a + rest)[1..] == a[1..] + rest;
      DigitPrefixStops(a[1..], rest);
    } else {
      assert a + rest == rest;
    }
  }

  /** Text that starts with a digit is read from its first character. */
  lemma ParseFloatFromDigit(s: string)
    requires s != [] && IsDigit(s[0])
    ensures ParseFloat(s) == ParseUnsigned(s)
  {
    assert !IsJsWhitespace(s[0]);
    assert TrimStart(s) == s;
  }

  /** Digits alone, with no point after them, are read as their value. */
  lemma ParseUnsignedDigits(s: string)
    requires s != [] && AllDigits(s)
    ensures ParseUnsigned(s) == Some(DigitsValue(s) as real)
  {
    DigitPrefixStops(s, []);
    assert s + [] == s;
    var rest := s[|s|..];
    assert rest == [];
    var whole := DigitsValue(s) as real;
    assert (DigitsValue([]) as real) / (Pow10(0) as real) == 0.0;
    assert whole + 0.0 == whole;
  }

  /** Whole points read back as themselves. */
  lemma ParsePointsWhole(n: nat)
    ensures ParsePoints(NatToString(n)) == n as real
  {
    var s := NatToString(n);
    ParseFloatFromDigit(s);
    DigitsValueOfNatToString(n);
    ParseUnsignedDigits(s);
  }

  /** A text whose digits are followed by ".5" is read as their value and
      a half. */
  lemma ParseUnsignedHalfParts(body: string, whole: string)
    requires whole != [] && DigitPrefix(body) == whole && body[|whole|..] == ".5"
    ensures ParseUnsigned(body) == Some(DigitsValue(whole) as real + 0.5)
  {
    HalfFraction();
    var rest := body[|whole|..];
    assert rest[0] == '.' && rest[1..] == ".5"[1..];
    assert (5 as real) / (10 as real) == 0.5;
  }

  /** Digits, a point and the digit 5 are read as the digits' value and a
      half. */
  lemma ParseUnsignedHalf(a: string)
    requires a != [] && AllDigits(a)
    ensures ParseUnsigned(a + ".5") == Some(DigitsValue(a) as real + 0.5)
  {
    DigitPrefixStops(a, ".5");
    assert (a + ".5")[|a|..] == ".5";
    ParseUnsignedHalfParts(a + ".5", a);
  }

  /** Half points read back too: "12.5" is twelve and a half. */
  lemma ParsePointsHalf(n: nat)
    ensures ParsePoints(NatToString(n) + ".5") == n as real + 0.5
  {
    var a := NatToString(n);
    assert (a + ".5")[0] == a[0];
    ParseFloatFromDigit(a + ".5");
    DigitsValueOfNatToString(n);
    ParseUnsignedHalf(a);
  }

  /** The fraction ".5" is one half. */
  lemma HalfFraction()
    ensures DigitPrefix(".5"[1..]) == "5" && DigitsValue("5") == 5 && Pow10(1) == 10
  {
    assert ".5"[1..] == "5";
    DigitPrefixStops("5", []);
    assert "5" + [] == "5";
    assert "5"[..0] == [];
  }

  /** Text that starts with neither a digit, a sign, a point nor
      whitespace is worth nothing. */
  lemma ParsePointsNonNumeric(s: string)
    requires s == [] || (!IsDigit(s[0]) && !IsJsWhitespace(s[0]) && s[0] != '-' && s[0] != '+' && s[0] != '.')
    ensures ParsePoints(s) == 0.0
  {
    assert TrimStart(s) == s;
  }

  // ---------------------------------------------------------------------------
  // Records

  datatype ConstructorRef = ConstructorRef(constructorId: string, name: string)

  /** A driver's standings entry; `constructors` may be empty. */
  datatype DriverStanding = DriverStanding(
    driverId: string,
    code: string,
    givenName: string,
    familyName: string,
    constructors: seq<ConstructorRef>,
    points: string)

  datatype BattleDriver = BattleDriver(
    driverId: string,
    code: string,
    givenName: string,
    familyName: string,
    constructorId: string,
    constructorName: string,
    teamColor: string,
    imageUrl: string,
    points: real)

  /** One chart row: the round read with `parseInt` (`None` for NaN), its
      label, the race and circuit names, and the points of each driver in
      that round's standings. */
  datatype BattleDataPoint = BattleDataPoint(
    round: Option<int>,
    roundLabel: string,
    raceName: string,
    circuitName: string,
    points: map<string, real>)

  datatype BattlePayload = BattlePayload(
    season: string,
    races: seq<CalendarRace>,
    drivers: seq<BattleDriver>,
    data: seq<BattleDataPoint>,
    defaultDriverIds: seq<string>)

  // ---------------------------------------------------------------------------
  // Assembly

  function NonEmpty(entries: seq<DriverStanding>): bool {
    |entries| > 0
  }

  /** The latest round's standings that are not empty, or else the
      season's standings. */
  function FinalStandings(byRound: seq<seq<DriverStanding>>, season: seq<DriverStanding>): (final: seq<DriverStanding>)
    ensures (forall i | 0 <= i < |byRound| :: byRound[i] == []) ==> final == season
    ensures (exists i | 0 <= i < |byRound| :: byRound[i] != []) ==>
      exists i | 0 <= i < |byRound| :: (final == byRound[i] && byRound[i] != []
        && forall j | i < j < |byRound| :: byRound[j] == [])
  {
    var found := FindFirst(Reverse(byRound), NonEmpty);
    LatestNonEmpty(byRound);
    if found.Some? then found.value else season
  }

  /** Searching the reversed rounds finds the latest non-empty one, and
      finds none only when every round is empty. */
  lemma LatestNonEmpty(byRound: seq<seq<DriverStanding>>)
    ensures var found := FindFirst(Reverse(byRound), NonEmpty);
      (found.None? <==> forall i | 0 <= i < |byRound| :: byRound[i] == [])
      && (found.Some? ==> exists i | 0 <= i < |byRound| :: (found.value == byRound[i] && byRound[i] != []
            && forall j | i < j < |byRound| :: byRound[j] == []))
  {
    var reversed := Reverse(byRound);
    var found := FindFirst(reversed, NonEmpty);
    var n := |byRound|;
    if found.Some? {
      var k :| 0 <= k < n && reversed[k] == found.value && forall j | 0 <= j < k :: !NonEmpty(reversed[j]);
      var i := n - 1 - k;
      assert reversed[k] == byRound[i];
      forall j | i < j < n ensures byRound[j] == [] {
        assert reversed[n - 1 - j] == byRound[j];
        assert !NonEmpty(reversed[n - 1 - j]);
      }
    } else {
      forall i | 0 <= i < n ensures byRound[i] == [] {
        assert reversed[n - 1 - i] == byRound[i];
        assert !NonEmpty(reversed[n - 1 - i]);
      }
    }
    if forall i | 0 <= i < n :: byRound[i] == [] {
      forall j | 0 <= j < n ensures !NonEmpty(reversed[j]) {
        assert reversed[j] == byRound[n - 1 - j];
      }
    }
  }

  /** A standings entry as a chart driver: the first constructor's id ("" if
      none) and name ("Unknown Team" if none), its colour and the driver's
      portrait, and the points read as a number. */
  function ToBattleDriver(entry: DriverStanding): (d: BattleDriver)
    ensures d.driverId == entry.driverId && d.points == ParsePoints(entry.points)
    ensures entry.constructors == [] ==> d.constructorId == "" && d.constructorName == "Unknown Team"
    ensures d.teamColor == GetTeamColor(d.constructorId)
    ensures entry.constructors != [] ==>
      (d.constructorId == entry.constructors[0].constructorId
       && d.constructorName == OrStr(entry.constructors[0].name, "Unknown Team"))
  {
    var constructorId := if entry.constructors == [] then "" else entry.constructors[0].constructorId;
    var constructorName := if entry.constructors == [] then "Unknown Team" else OrStr(entry.constructors[0].name, "Unknown Team");
    BattleDriver(entry.driverId, entry.code, entry.givenName, entry.familyName, constructorId, constructorName,
      GetTeamColor(constructorId), GetDriverImageUrl(entry.driverId), ParsePoints(entry.points))
  }

  /** A driver without a constructor is drawn in grey. */
  lemma NoTeamIsGrey(entry: DriverStanding)
    requires entry.constructors == []
    ensures ToBattleDriver(entry).teamColor == "#888888"
  {
    assert "" !in TeamColors;
  }

  /** `s.slice(0, 3).map(d => d.driverId)`. */
  function FirstThreeIds(drivers: seq<BattleDriver>): (ids: seq<string>)
    ensures |ids| == if |drivers| < 3 then |drivers| else 3
    ensures forall i | 0 <= i < |ids| :: ids[i] == drivers[i].driverId
  {
    var n := if |drivers| < 3 then |drivers| else 3;
    seq(n, i requires 0 <= i < n => drivers[i].driverId)
  }

  /** The map from driver id to `value` of that driver's entry: one key per
      driver id in the standings; for an id listed twice, the later entry
      wins. */
  function PointsMap(standings: seq<DriverStanding>, value: DriverStanding -> real): map<string, real>
    decreases |standings|
  {
    if standings == [] then map[]
    else
      var last := standings[|standings| - 1];
      PointsMap(standings[..|standings| - 1], value)[last.driverId := value(last)]
  }

  /** An entry's points read as a number. */
  function EntryPoints(entry: DriverStanding): real {
    ParsePoints(entry.points)
  }

  /** The points a round's standings give each driver. */
  function RowPoints(standings: seq<DriverStanding>): map<string, real> {
    PointsMap(standings, EntryPoints)
  }

  /** Entry `i` of the standings is the last one with its driver id. */
  ghost predicate IsLastWithId(standings: seq<DriverStanding>, i: int) {
    0 <= i < |standings| && forall j | i < j < |standings| :: standings[j].driverId != standings[i].driverId
  }

  lemma {:induction false} PointsMapKeys(standings: seq<DriverStanding>, value: DriverStanding -> real, id: string)
    ensures id in PointsMap(standings, value) <==> exists i | 0 <= i < |standings| :: standings[i].driverId == id
    decreases |standings|
  {
    if standings != [] {
      var n := |standings| - 1;
      var prefix := standings[..n];
      PointsMapKeys(prefix, value, id);
      if standings[n].driverId != id {
        if exists i | 0 <= i < |standings| :: standings[i].driverId == id {
          var i :| 0 <= i < |standings| && standings[i].driverId == id;
          assert prefix[i].driverId == id;
        }
      }
    }
  }

  /** The entry a driver's value comes from. */
  lemma {:induction false} PointsSource(standings: seq<DriverStanding>, value: DriverStanding -> real, id: string)
    returns (i: int)
    requires id in PointsMap(standings, value)
    ensures IsLastWithId(standings, i) && standings[i].driverId == id
    ensures PointsMap(standings, value)[id] == value(standings[i])
    decreases |standings|
  {
    var n := |standings| - 1;
    var prefix := standings[..n];
    if standings[n].driverId == id {
      i := n;
    } else {
      i := PointsSource(prefix, value, id);
      assert standings[i] == prefix[i];
      forall j | i < j < |standings|
        ensures standings[j].driverId != standings[i].driverId
      {
        if j < n {
          assert standings[j] == prefix[j];
        }
      }
    }
  }

  /** A row has a key for every driver in that round's standings and no
      other. */
  lemma RowPointsKeys(standings: seq<DriverStanding>, id: string)
    ensures id in RowPoints(standings) <==> exists i | 0 <= i < |standings| :: standings[i].driverId == id
  {
    PointsMapKeys(standings, EntryPoints, id);
  }

  /** A driver's entry holds the points of the last standings entry for
      that driver. */
  lemma RowPointsValues(standings: seq<DriverStanding>, id: string)
    requires id in RowPoints(standings)
    ensures exists i | IsLastWithId(standings, i) ::
      standings[i].driverId == id && RowPoints(standings)[id] == ParsePoints(standings[i].points)
  {
    var i := PointsSource(standings, EntryPoints, id);
  }

  /** The chart row of a race, given that round's standings. */
  function RowFor(race: CalendarRace, standings: seq<DriverStanding>): (row: BattleDataPoint)
    ensures row.round == ParseInt(race.round)
    ensures row.roundLabel == "R" + race.round
    ensures row.raceName == race.raceName && row.circuitName == race.circuit.circuitName
  {
    BattleDataPoint(ParseInt(race.round), "R" + race.round, race.raceName, race.circuit.circuitName, RowPoints(standings))
  }

  /** Builds one row, setting a driver's points entry by entry. */
  method BuildRow(race: CalendarRace, standings: seq<DriverStanding>) returns (row: BattleDataPoint)
    ensures row == RowFor(race, standings)
  {
    var points: map<string, real> := map[];
    for i := 0 to |standings|
      invariant points == PointsMap(standings[..i], EntryPoints)
    {
      assert standings[..i + 1][..i] == standings[..i];
      points := points[standings[i].driverId := EntryPoints(standings[i])];
    }
    assert standings[..|standings|] == standings;
    row := BattleDataPoint(ParseInt(race.round), "R" + race.round, race.raceName, race.circuit.circuitName, points);
  }

  /** `getBattlePayload`, with the calendar request's outcome, the standings
      after a given round (an empty list when that request fails) and the
      season's standings (the same) as parameters: nothing for an empty
      calendar; otherwise the drivers of the final standings, one row per
      race in calendar order, and the first three drivers' ids. */
  method GetBattlePayload(season: string, calendar: Option<seq<CalendarRace>>,
                          roundStandings: string -> seq<DriverStanding>, seasonStandings: seq<DriverStanding>)
    returns (payload: BattlePayload)
    ensures payload.season == season
    ensures calendar.None? || calendar.value == [] ==>
      payload == BattlePayload(season, [], [], [], [])
    ensures calendar.Some? && calendar.value != [] ==>
      var races := calendar.value;
      var final := FinalStandings(MapSeq((r: CalendarRace) => roundStandings(r.round), races), seasonStandings);
      payload.races == races
      && payload.drivers == MapSeq(ToBattleDriver, final)
      && |payload.data| == |races|
      && (forall i | 0 <= i < |races| :: payload.data[i] == RowFor(races[i], roundStandings(races[i].round)))
      && payload.defaultDriverIds == FirstThreeIds(payload.drivers)
  {
    var races := calendar.GetOr([]);
    if |races| == 0 {
      return BattlePayload(season, [], [], [], []);
    }
    var byRound := MapSeq((r: CalendarRace) => roundStandings(r.round), races);
    var drivers := MapSeq(ToBattleDriver, FinalStandings(byRound, seasonStandings));
    var data := BuildRows(races, roundStandings);
    payload := BattlePayload(season, races, drivers, data, FirstThreeIds(drivers));
  }

  /** One chart row per race, in calendar order. */
  method BuildRows(races: seq<CalendarRace>, roundStandings: string -> seq<DriverStanding>)
    returns (data: seq<BattleDataPoint>)
    ensures |data| == |races|
    ensures forall i | 0 <= i < |races| :: data[i] == RowFor(races[i], roundStandings(races[i].round))
  {
    data := [];
    for i := 0 to |races|
      invariant |data| == i
      invariant forall k | 0 <= k < i :: data[k] == RowFor(races[k], roundStandings(races[k].round))
    {
      var row := BuildRow(races[i], roundStandings(races[i].round));
      data := data + [row];
    }
  }
}
