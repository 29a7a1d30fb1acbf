/** The route that saves a prediction: checks run in a fixed order
    (authentication, input, race, session, lock, duplicates) and the first
    that fails decides the status. The pole is stored only for the two
    qualifying sessions. The calendar, the clock, the user and the database
    outcome are parameters. */
module GamePredictions {
  import opened Common
  import opened F1Types

  /** The body of a save request. `season` and `round` are `None` when
      `Number(...)` of the sent value is not an integer. */
  datatype SaveRequest = SaveRequest(
    season: Option<int>,
    round: Option<int>,
    sessionType: GameSessionType,
    pole: Option<string>,
    p1: Option<string>,
    p2: Option<string>,
    p3: Option<string>,
    isDefault: Option<bool>)

  datatype SaveOutcome = Rejected(status: int) | Saved(prediction: Prediction)

  /** Whether a session type carries a pole pick. */
  predicate HasPole(sessionType: GameSessionType) {
    sessionType == Qualifying || sessionType == SprintQualifying
  }

  /** `getSessionStartTime`: the start of the session on the race weekend,
      none when the weekend lacks it; the race always has one, at 14:00 on
      race day when no time is given. */
  function SessionStartTime(race: CalendarRace, sessionType: GameSessionType): (start: Option<int>)
    ensures sessionType == Race ==> start == Some(race.date + race.time.GetOr(DefaultRaceTime))
    ensures sessionType == Qualifying ==> (start.Some? <==> race.qualifying.Some?)
    ensures sessionType == SprintQualifying ==> (start.Some? <==> race.sprintQualifying.Some?)
    ensures sessionType == Sprint ==> (start.Some? <==> race.sprint.Some?)
    ensures sessionType == Qualifying && start.Some? ==> start.value == race.qualifying.value.date + race.qualifying.value.time
    ensures sessionType == SprintQualifying && start.Some? ==> start.value == race.sprintQualifying.value.date + race.sprintQualifying.value.time
    ensures sessionType == Sprint && start.Some? ==> start.value == race.sprint.value.date + race.sprint.value.time
  {
    match sessionType
    case Qualifying => if race.qualifying.None? then None else Some(race.qualifying.value.date + race.qualifying.value.time)
    case SprintQualifying =>
      if race.sprintQualifying.None? then None else Some(race.sprintQualifying.value.date + race.sprintQualifying.value.time)
    case Sprint => if race.sprint.None? then None else Some(race.sprint.value.date + race.sprint.value.time)
    case Race => Some(race.date + race.time.GetOr(DefaultRaceTime))
  }

  /** The present, non-empty ids among the picks. */
  function PickedIds(drivers: seq<Option<string>>): (ids: seq<string>)
    ensures |ids| <= |drivers|
    ensures forall d :: d in ids <==> Some(d) in drivers && d != ""
    decreases |drivers|
  {
    if drivers == [] then []
    else
      var n := |drivers| - 1;
      var ids := PickedIds(drivers[..n]);
      assert drivers == drivers[..n] + [drivers[n]];
      if Truthy(drivers[n]) then ids + [drivers[n].value] else ids
  }

  /** `hasDuplicateDrivers`: the set of picked ids is smaller than the list
      of picked ids. */
  function HasDuplicateDrivers(drivers: seq<Option<string>>): bool {
    var ids := PickedIds(drivers);
    |set d | d in ids| != |ids|
  }

  /** A sequence has as many distinct elements as entries iff no entry
      repeats. */
  lemma {:induction false} DistinctCount(s: seq<string>)
    ensures |set d | d in s| == |s| <==> Distinct(s)
    ensures |set d | d in s| <= |s|
    decreases |s|
  {
    if s != [] {
      var n := |s| - 1;
      var prefix := s[..n];
      DistinctCount(prefix);
      assert s == prefix + [s[n]];
      assert (set d | d in s) == (set d | d in prefix) + {s[n]};
      if s[n] in prefix {
        var i :| 0 <= i < n && prefix[i] == s[n];
        assert s[i] == s[n];
        assert (set d | d in s) == (set d | d in prefix);
      } else {
        assert Distinct(s) <==> Distinct(prefix) by {
          if Distinct(prefix) {
            forall i, j | 0 <= i < j < |s|
              ensures s[i] != s[j]
            {
              if j == n {
                assert s[i] == prefix[i];
              } else {
                assert s[i] == prefix[i] && s[j] == prefix[j];
              }
            }
          }
          if Distinct(s) {
            forall i, j | 0 <= i < j < n
              ensures prefix[i] != prefix[j]
            {
              assert s[i] == prefix[i] && s[j] == prefix[j];
            }
          }
        }
      }
    }
  }

  /** Two picks name the same driver: both present and non-empty, at two
      different places. */
  ghost predicate RepeatedPick(drivers: seq<Option<string>>) {
    exists i, j | 0 <= i < j < |drivers| :: Truthy(drivers[i]) && drivers[i] == drivers[j]
  }

  /** Appending keeps a sequence distinct iff the new element is new. */
  lemma AppendDistinct(ids: seq<string>, d: string)
    ensures Distinct(ids + [d]) <==> Distinct(ids) && d !in ids
  {
    var all := ids + [d];
    assert forall i | 0 <= i < |ids| :: all[i] == ids[i];
    if d in ids {
      var i :| 0 <= i < |ids| && ids[i] == d;
      assert all[i] == all[|ids|];
    }
  }

  /** A repeated pick is one in the prefix or a last pick seen before. */
  lemma RepeatedPickStep(drivers: seq<Option<string>>)
    requires drivers != []
    ensures var n := |drivers| - 1;
      RepeatedPick(drivers) <==> RepeatedPick(drivers[..n]) || (Truthy(drivers[n]) && drivers[n] in drivers[..n])
  {
    var n := |drivers| - 1;
    var prefix := drivers[..n];
    assert forall i | 0 <= i < n :: prefix[i] == drivers[i];
    if RepeatedPick(drivers) {
      var i, j :| 0 <= i < j < |drivers| && Truthy(drivers[i]) && drivers[i] == drivers[j];
      if j == n {
        assert drivers[n] == prefix[i];
      } else {
        assert Truthy(prefix[i]) && prefix[i] == prefix[j];
      }
    }
    if RepeatedPick(prefix) {
      var i, j :| 0 <= i < j < n && Truthy(prefix[i]) && prefix[i] == prefix[j];
      assert Truthy(drivers[i]) && drivers[i] == drivers[j];
    }
    if Truthy(drivers[n]) && drivers[n] in prefix {
      var i :| 0 <= i < n && prefix[i] == drivers[n];
      assert Truthy(drivers[i]) && drivers[i] == drivers[n];
    }
  }

  /** The picked ids repeat iff two picks name the same driver; null and
      empty picks are ignored. */
  lemma {:induction false} PickedIdsDistinct(drivers: seq<Option<string>>)
    ensures Distinct(PickedIds(drivers)) <==> !RepeatedPick(drivers)
    decreases |drivers|
  {
    if drivers != [] {
      var n := |drivers| - 1;
      PickedIdsDistinct(drivers[..n]);
      RepeatedPickStep(drivers);
      if Truthy(drivers[n]) {
        AppendDistinct(PickedIds(drivers[..n]), drivers[n].value);
      }
    }
  }

  /** `hasDuplicateDrivers` holds iff two non-empty picks are equal. */
  lemma HasDuplicateDriversSpec(drivers: seq<Option<string>>)
    ensures HasDuplicateDrivers(drivers) <==> RepeatedPick(drivers)
  {
    DistinctCount(PickedIds(drivers));
    PickedIdsDistinct(drivers);
  }

  /** The round of a calendar entry as `Number(r.round)` reads it. */
  function RoundOf(race: CalendarRace): Option<nat> {
    ParseNat(race.round)
  }

  /** The race the route looks up: the first calendar entry whose round
      reads as the requested one. */
  function RaceFor(calendar: seq<CalendarRace>, round: int): Option<CalendarRace> {
    FindFirst(calendar, r => RoundOf(r) == Some(round))
  }

  /** The four picks as stored: the pole only for a qualifying session,
      every empty pick as null. */
  function StoredPicks(body: SaveRequest): seq<Option<string>> {
    [if HasPole(body.sessionType) then OrNull(body.pole) else None, OrNull(body.p1), OrNull(body.p2), OrNull(body.p3)]
  }

  /** The request has a user and a whole season and round. */
  predicate WellFormed(userId: Option<string>, body: SaveRequest) {
    userId.Some? && body.season.Some? && body.round.Some?
  }

  /** The session's start, when the calendar has the race and the race has
      the session. */
  function StartOf(body: SaveRequest, calendar: seq<CalendarRace>): Option<int>
    requires body.round.Some?
  {
    var race := RaceFor(calendar, body.round.value);
    if race.None? then None else SessionStartTime(race.value, body.sessionType)
  }

  /** `POST`: the first failing check decides the status; a request that
      passes them all is stored with the pole only for a qualifying
      session and every empty pick as null. */
  function SavePrediction(
    userId: Option<string>, body: SaveRequest, calendar: Option<seq<CalendarRace>>, now: int,
    adminOk: bool, upsertOk: bool): (out: SaveOutcome)
    ensures userId.None? ==> out == Rejected(401)
    ensures userId.Some? && (body.season.None? || body.round.None?) ==> out == Rejected(400)
    ensures WellFormed(userId, body) && calendar.None? ==> out == Rejected(500)
    ensures WellFormed(userId, body) && calendar.Some? && RaceFor(calendar.value, body.round.value).None? ==>
      out == Rejected(404)
    ensures (WellFormed(userId, body) && calendar.Some? && RaceFor(calendar.value, body.round.value).Some?
      && StartOf(body, calendar.value).None?) ==> out == Rejected(400)
    ensures WellFormed(userId, body) && calendar.Some? && StartOf(body, calendar.value).Some? ==> (
      (now >= StartOf(body, calendar.value).value ==> out == Rejected(423))
      && (now < StartOf(body, calendar.value).value && RepeatedPick(StoredPicks(body)) ==> out == Rejected(400))
      && (now < StartOf(body, calendar.value).value && !RepeatedPick(StoredPicks(body)) ==>
        (adminOk && upsertOk ==> out.Saved?) && (!(adminOk && upsertOk) ==> out == Rejected(500))))
    ensures out.Saved? ==> userId.Some? && body.season.Some? && body.round.Some? && calendar.Some? && adminOk && upsertOk
    ensures out.Saved? ==> exists race | race in calendar.value ::
      RoundOf(race) == Some(body.round.value) && SessionStartTime(race, body.sessionType).Some?
      && now < SessionStartTime(race, body.sessionType).value
    ensures out.Saved? ==> (out.prediction.userId == userId.value
      && out.prediction.season == body.season.value && out.prediction.round == body.round.value
      && out.prediction.sessionType == body.sessionType
      && out.prediction.isDefault == body.isDefault.GetOr(false))
    ensures out.Saved? ==> (out.prediction.pole == (if HasPole(body.sessionType) then OrNull(body.pole) else None)
      && out.prediction.p1 == OrNull(body.p1) && out.prediction.p2 == OrNull(body.p2) && out.prediction.p3 == OrNull(body.p3))
    ensures out.Saved? ==> !RepeatedPick([out.prediction.pole, out.prediction.p1, out.prediction.p2, out.prediction.p3])
  {
    if userId.None? then Rejected(401)
    else if body.season.None? || body.round.None? then Rejected(400)
    else if calendar.None? then Rejected(500)
    else
      var round := body.round.value;
      var race := RaceFor(calendar.value, round);
      if race.None? then Rejected(404)
      else
        var start := SessionStartTime(race.value, body.sessionType);
        if start.None? then Rejected(400)
        else if now >= start.value then Rejected(423)
        else
          var picks := StoredPicks(body);
          var pole := picks[0];
          HasDuplicateDriversSpec(picks);
          if HasDuplicateDrivers(picks) then Rejected(400)
          else if !adminOk || !upsertOk then Rejected(500)
          else
            Saved(Prediction(userId.value, body.season.value, round, body.sessionType,
              pole, OrNull(body.p1), OrNull(body.p2), OrNull(body.p3), body.isDefault.GetOr(false)))
  }

  /** A save is refused with 423 exactly when the weekend has the session
      and it has started. */
  lemma LockedIffStarted(userId: string, body: SaveRequest, calendar: seq<CalendarRace>, now: int, race: CalendarRace, adminOk: bool, upsertOk: bool)
    requires body.season.Some? && body.round.Some?
    requires RaceFor(calendar, body.round.value) == Some(race)
    requires SessionStartTime(race, body.sessionType).Some?
    ensures SavePrediction(Some(userId), body, Some(calendar), now, adminOk, upsertOk) == Rejected(423)
      <==> now >= SessionStartTime(race, body.sessionType).value
  {
  }

  /** A race save is never refused for a missing session. */
  lemma RaceAlwaysHasStart(race: CalendarRace)
    ensures SessionStartTime(race, Race).Some?
    ensures race.time.None? ==> SessionStartTime(race, Race) == Some(race.date + 14 * 3600000)
  {
  }

  /** A race prediction never stores a pole, whatever was sent. */
  lemma RacePoleDropped(userId: string, body: SaveRequest, calendar: seq<CalendarRace>, now: int)
    requires body.sessionType == Race || body.sessionType == Sprint
    ensures var out := SavePrediction(Some(userId), body, Some(calendar), now, true, true);
      out.Saved? ==> out.prediction.pole.None?
  {
  }
}
