/** The driver battle page on the client: the season on show, the drivers
    and chart rows of that season, and the drivers picked for the chart,
    which start as the payload's defaults (or its first three drivers) and
    are toggled one at a time, never down to none. */
module BattleClient {
  import opened Common
  import opened Battle

  // ---------------------------------------------------------------------------
  // Picking drivers

  /** `toggleDriver`: a picked driver is dropped, unless it is the only one
      picked; a driver not picked is added at the end. */
  function ToggleDriver(prev: seq<string>, id: string): (next: seq<string>)
    ensures id in prev && |prev| == 1 ==> next == prev
    ensures id in prev && |prev| != 1 ==> id !in next && forall x | x != id :: x in next <==> x in prev
    ensures id !in prev ==> next == prev + [id]
  {
    if id in prev then
      if |prev| == 1 then prev else Filter(prev, (x: string) => x != id)
    else prev + [id]
  }

  lemma {:induction false} FilterAllPass<T>(s: seq<T>, p: T -> bool)
    requires forall x | x in s :: p(x)
    ensures Filter(s, p) == s
    decreases |s|
  {
    if s != [] {
      var n := |s| - 1;
      FilterAllPass(s[..n], p);
      assert s[..n] + [s[n]] == s;
    }
  }

  lemma {:induction false} FilterKeepsDistinct<T>(s: seq<T>, p: T -> bool)
    requires Distinct(s)
    ensures Distinct(Filter(s, p))
    decreases |s|
  {
    if s != [] {
      var n := |s| - 1;
      var rest := Filter(s[..n], p);
      FilterKeepsDistinct(s[..n], p);
      if p(s[n]) {
        assert s[n] !in s[..n];
        assert s[n] !in rest;
        var r := rest + [s[n]];
        forall i, j | 0 <= i < j < |r|
          ensures r[i] != r[j]
        {
          if j == |rest| {
            assert r[i] in rest;
          }
        }
      }
    }
  }

  /** Toggling keeps the picked drivers free of repeats. */
  lemma ToggleKeepsDistinct(prev: seq<string>, id: string)
    requires Distinct(prev)
    ensures Distinct(ToggleDriver(prev, id))
  {
    if id in prev {
      if |prev| != 1 {
        FilterKeepsDistinct(prev, (x: string) => x != id);
      }
    } else {
      var next := prev + [id];
      forall i, j | 0 <= i < j < |next|
        ensures next[i] != next[j]
      {
        if j == |prev| {
          assert next[i] in prev;
        }
      }
    }
  }

  /** With no repeats, toggling never leaves the chart without a driver
      once one is picked. */
  lemma ToggleKeepsOne(prev: seq<string>, id: string)
    requires Distinct(prev) && prev != []
    ensures ToggleDriver(prev, id) != []
  {
    if id in prev && |prev| != 1 {
      var other := if prev[0] != id then prev[0] else prev[1];
      assert other in prev && other != id;
      assert other in ToggleDriver(prev, id);
    }
  }

  /** A repeated pick breaks that promise: toggling the only picked driver,
      picked twice, empties the chart. */
  lemma RepeatedPickEmpties(id: string)
    ensures ToggleDriver([id, id], id) == []
  {
    var p := (x: string) => x != id;
    assert [id][..0] == [];
    assert Filter([id], p) == [];
    assert [id, id][..1] == [id];
    assert Filter([id, id], p) == [];
  }

  /** Adding a driver and toggling it again restores the picks. */
  lemma ToggleTwice(prev: seq<string>, id: string)
    requires id !in prev && prev != []
    ensures ToggleDriver(ToggleDriver(prev, id), id) == prev
  {
    var p := (x: string) => x != id;
    var added := prev + [id];
    assert added[..|prev|] == prev;
    FilterAllPass(prev, p);
    assert Filter(added, p) == Filter(prev, p);
  }

  /** The first selection: the given defaults when there are any, else the
      first three drivers. */
  function DefaultSelection(defaultIds: seq<string>, drivers: seq<BattleDriver>): (ids: seq<string>)
    ensures defaultIds != [] ==> ids == defaultIds
    ensures defaultIds == [] ==> |ids| <= 3 && |ids| <= |drivers| && forall i | 0 <= i < |ids| :: ids[i] == drivers[i].driverId
    ensures drivers != [] ==> ids != []
  {
    if |defaultIds| > 0 then defaultIds else FirstThreeIds(drivers)
  }

  /** The server already sends the first three drivers as defaults, so the
      client's fallback picks the same drivers. */
  lemma ServerDefaultsAgree(drivers: seq<BattleDriver>)
    ensures DefaultSelection(FirstThreeIds(drivers), drivers) == FirstThreeIds(drivers)
  {
  }

  // ---------------------------------------------------------------------------
  // The page's state

  /** The answer of the battle request as the page reads it: each field
      may be missing from the JSON. */
  datatype ApiResponse = ApiResponse(
    drivers: Option<seq<BattleDriver>>,
    data: Option<seq<BattleDataPoint>>,
    defaultDriverIds: Option<seq<string>>)

  /** What a payload built by the server reads as on the client. */
  function AsResponse(p: BattlePayload): ApiResponse {
    ApiResponse(Some(p.drivers), Some(p.data), Some(p.defaultDriverIds))
  }

  class BattleView {
    var season: string
    var drivers: seq<BattleDriver>
    var data: seq<BattleDataPoint>
    var selectedDriverIds: seq<string>
    var loading: bool

    /** The season in the address when there is a non-empty one, else the
        server's; the server's drivers, rows and default selection. */
    constructor (urlSeason: Option<string>, initialSeason: string, initialDrivers: seq<BattleDriver>,
                 initialData: seq<BattleDataPoint>, initialDefaultDriverIds: seq<string>)
      ensures season == (if Truthy(urlSeason) then urlSeason.value else initialSeason)
      ensures drivers == initialDrivers && data == initialData
      ensures selectedDriverIds == DefaultSelection(initialDefaultDriverIds, initialDrivers)
      ensures !loading
    {
      season := if urlSeason.Some? then OrStr(urlSeason.value, initialSeason) else initialSeason;
      drivers := initialDrivers;
      data := initialData;
      selectedDriverIds := DefaultSelection(initialDefaultDriverIds, initialDrivers);
      loading := false;
    }

    /** `fetchBattleData` once its answer is in (`None` when the request
        fails, is refused or is not JSON): an answer installs its drivers
        and rows, a missing field reading as empty, and its default
        selection; a failure clears all three. The season is not touched. */
    method FetchBattleData(response: Option<ApiResponse>)
      modifies this
      ensures season == old(season) && !loading
      ensures response.None? ==> drivers == [] && data == [] && selectedDriverIds == []
      ensures response.Some? ==>
        drivers == response.value.drivers.GetOr([])
        && data == response.value.data.GetOr([])
        && selectedDriverIds == DefaultSelection(response.value.defaultDriverIds.GetOr([]), drivers)
    {
      loading := true;
      if response.None? {
        drivers := [];
        data := [];
        selectedDriverIds := [];
      } else {
        var payload := response.value;
        drivers := payload.drivers.GetOr([]);
        data := payload.data.GetOr([]);
        selectedDriverIds := DefaultSelection(payload.defaultDriverIds.GetOr([]), drivers);
      }
      loading := false;
    }

    /** `handleSeasonChange`: shows the new season, then loads it. */
    method ChangeSeason(nextSeason: string, response: Option<ApiResponse>)
      modifies this
      ensures season == nextSeason && !loading
      ensures response.None? ==> drivers == [] && data == [] && selectedDriverIds == []
      ensures response.Some? ==>
        drivers == response.value.drivers.GetOr([])
        && data == response.value.data.GetOr([])
        && selectedDriverIds == DefaultSelection(response.value.defaultDriverIds.GetOr([]), drivers)
    {
      season := nextSeason;
      FetchBattleData(response);
    }

    /** The first render's check of the address: a non-empty season there
        that differs from the server's is loaded (its answer is the
        parameter); otherwise nothing changes. */
    method Mount(urlSeason: Option<string>, initialSeason: string, response: Option<ApiResponse>)
      modifies this
      ensures !(Truthy(urlSeason) && urlSeason.value != initialSeason) ==>
        season == old(season) && drivers == old(drivers) && data == old(data)
        && selectedDriverIds == old(selectedDriverIds) && loading == old(loading)
      ensures Truthy(urlSeason) && urlSeason.value != initialSeason ==>
        season == urlSeason.value && !loading
        && (response.None? ==> drivers == [] && data == [] && selectedDriverIds == [])
        && (response.Some? ==>
          drivers == response.value.drivers.GetOr([])
          && data == response.value.data.GetOr([])
          && selectedDriverIds == DefaultSelection(response.value.defaultDriverIds.GetOr([]), drivers))
    {
      if urlSeason.Some? && urlSeason.value != "" && urlSeason.value != initialSeason {
        FetchBattleData(response);
        season := urlSeason.value;
      }
    }

    /** A click on a driver in the selector. */
    method Toggle(id: string)
      modifies this
      ensures selectedDriverIds == ToggleDriver(old(selectedDriverIds), id)
      ensures season == old(season) && drivers == old(drivers) && data == old(data) && loading == old(loading)
    {
      selectedDriverIds := ToggleDriver(selectedDriverIds, id);
    }
  }

  /** Loading a season whose payload the server built picks that season's
      first three drivers, or none when it has no drivers. */
  lemma LoadedPayloadPicksFirstThree(p: BattlePayload)
    requires p.defaultDriverIds == FirstThreeIds(p.drivers)
    ensures DefaultSelection(AsResponse(p).defaultDriverIds.GetOr([]), AsResponse(p).drivers.GetOr([]))
      == FirstThreeIds(p.drivers)
  {
  }
}
