/** The selection logic of the OpenF1 client: the live test for a session,
    the latest session of a list, and the latest position per driver. The
    HTTP requests are not modelled; their results are parameters. */
module OpenF1 {
  import opened Common
  import opened F1Types
  import opened Reducers

  /** A session is live from its start to its end, both ends included. */
  predicate IsSessionLive(session: Session, now: int) {
    session.dateStart <= now <= session.dateEnd
  }

  /** A session with a non-empty window is live at both of its ends and at
      no time outside them; a session that ends before it starts is never
      live. */
  lemma LiveBetweenEnds(session: Session, now: int)
    ensures session.dateStart <= session.dateEnd ==>
      IsSessionLive(session, session.dateStart) && IsSessionLive(session, session.dateEnd)
    ensures now < session.dateStart || session.dateEnd < now ==> !IsSessionLive(session, now)
    ensures session.dateEnd < session.dateStart ==> !IsSessionLive(session, now)
  {
  }

  /** `getLatestSession`: null for an empty list, else the last session. */
  function GetLatestSession(sessions: seq<Session>): (latest: Option<Session>)
    ensures latest.None? <==> sessions == []
    ensures latest.Some? ==> latest.value in sessions && latest.value == sessions[|sessions| - 1]
  {
    if |sessions| == 0 then None else Some(sessions[|sessions| - 1])
  }

  /** The latest position per driver, in the order the Map yields them, then
      sorted by position. */
  function LatestPositions(positions: seq<Position>): seq<Position> {
    SortBy(LatestValues(positions, PositionDriver, PositionDate), PositionValue)
  }

  /** The reduction and sort of `getLatestPositions`: a record replaces the
      kept one of its driver only when its date is strictly later. */
  method GetLatestPositions(positions: seq<Position>) returns (latest: seq<Position>)
    ensures latest == LatestPositions(positions)
  {
    var latestMap: map<int, Position> := map[];
    var order: seq<int> := [];
    var i := 0;
    while i < |positions|
      invariant 0 <= i <= |positions|
      invariant latestMap == LatestFold(positions[..i], PositionDriver, PositionDate)
      invariant order == FirstSeenDrivers(positions[..i], PositionDriver)
      invariant forall d :: d in order <==> d in latestMap
    {
      var p := positions[i];
      assert positions[..i + 1][..i] == positions[..i];
      if p.driverNumber !in latestMap || p.date > latestMap[p.driverNumber].date {
        if p.driverNumber !in latestMap {
          order := order + [p.driverNumber];
        }
        latestMap := latestMap[p.driverNumber := p];
      }
      i := i + 1;
      LatestFoldKeys(positions[..i], PositionDriver, PositionDate);
    }
    assert positions[..|positions|] == positions;
    assert forall j | 0 <= j < |order| :: order[j] in latestMap by {
      forall j | 0 <= j < |order| ensures order[j] in latestMap {
        var d := order[j];
        assert d in order;
        assert d in order <==> d in latestMap;
      }
    }
    var values := seq(|order|, j requires 0 <= j < |order| => latestMap[order[j]]);
    assert values == LatestValues(positions, PositionDriver, PositionDate);
    latest := SortBy(values, PositionValue);
  }

  /** At most one record per driver, each the input record of that driver
      with the latest date (the first of equal dates), every driver of the
      input represented, and the whole sorted by position. */
  lemma LatestPositionsSpec(positions: seq<Position>)
    ensures DistinctBy(LatestPositions(positions), PositionDriver)
    ensures SortedBy(LatestPositions(positions), PositionValue)
    ensures forall p | p in LatestPositions(positions) ::
      p in positions && forall q | q in positions && q.driverNumber == p.driverNumber :: q.date <= p.date
    ensures forall q | q in positions :: exists p | p in LatestPositions(positions) :: p.driverNumber == q.driverNumber
    ensures forall p | p in LatestPositions(positions) ::
      exists i | 0 <= i < |positions| ::
        positions[i] == p
        && forall j | 0 <= j < i && positions[j].driverNumber == p.driverNumber :: positions[j].date < p.date
  {
    var values := LatestValues(positions, PositionDriver, PositionDate);
    var out := LatestPositions(positions);
    var latest := LatestFold(positions, PositionDriver, PositionDate);
    LatestValuesProperties(positions, PositionDriver, PositionDate);
    SortByDistinctBy(values, PositionValue, PositionDriver);
    LatestFoldMaximal(positions, PositionDriver, PositionDate);
    forall p | p in out
      ensures p in values
    {
      PermutationMembers(out, values, p);
    }
    forall p, q | p in out && q in positions && q.driverNumber == p.driverNumber
      ensures q.date <= p.date
    {
      var j :| 0 <= j < |positions| && positions[j] == q;
      assert PositionDriver(positions[j]) == p.driverNumber;
    }
    forall q | q in positions
      ensures exists p | p in out :: p.driverNumber == q.driverNumber
    {
      var j :| 0 <= j < |positions| && positions[j] == q;
      assert HasDriver(positions, PositionDriver, q.driverNumber);
      var v :| v in values && PositionDriver(v) == q.driverNumber;
      PermutationMembers(out, values, v);
    }
    forall p | p in out
      ensures exists i | 0 <= i < |positions| ::
        positions[i] == p
        && forall j | 0 <= j < i && positions[j].driverNumber == p.driverNumber :: positions[j].date < p.date
    {
      LatestFoldFirstSeen(positions, PositionDriver, PositionDate, p.driverNumber);
    }
  }
}
