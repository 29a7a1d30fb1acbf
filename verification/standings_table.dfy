/** The championship table: each entry's change of position since the
    previous round, found by matching the entry's id (the driver's in the
    drivers table, the constructor's in the constructors table) in the
    previous round's standings, and the arrow that shows it. */
module StandingsTable {
  import opened Common
  import opened TimingFormat

  datatype TableKind = Drivers | Constructors

  /** One standings entry: the driver's id (unused in the constructors
      table), the constructor's id, and the position and points as the feed
      sends them, as text. */
  datatype Standing = Standing(driverId: string, constructorId: string, position: string, points: string)

  /** The id an entry is matched by in a table of the given kind. */
  function IdFor(s: Standing, kind: TableKind): string {
    if kind == Drivers then s.driverId else s.constructorId
  }

  /** What `getPositionDelta` returns: null, a number of places, or NaN
      when a position does not read as a number. */
  datatype Delta = NoDelta | Places(d: int) | NotANumber

  function HasId(id: string, kind: TableKind): Standing -> bool {
    (s: Standing) => IdFor(s, kind) == id
  }

  /** Previous position minus current position, both read with `parseInt`,
      for the first previous entry with the same id; null when there are
      no previous standings or the entry is new. */
  function PositionDelta(currentPos: string, previous: Option<seq<Standing>>, id: string, kind: TableKind): (delta: Delta)
    ensures previous.None? || previous.value == [] ==> delta == NoDelta
    ensures previous.Some? ==>
      (delta == NoDelta <==> forall j | 0 <= j < |previous.value| :: IdFor(previous.value[j], kind) != id)
  {
    if previous.None? || |previous.value| == 0 then NoDelta
    else
      var prevEntry := FindFirst(previous.value, HasId(id, kind));
      if prevEntry.None? then NoDelta
      else
        var before := ParseIntNoRadix(prevEntry.value.position);
        var now := ParseIntNoRadix(currentPos);
        if before.None? || now.None? then NotANumber else Places(before.value - now.value)
  }

  /** The delta of an entry found with both positions numeric. */
  lemma DeltaOfFound(currentPos: string, previous: seq<Standing>, id: string, kind: TableKind,
                     found: Standing, before: int, now: int)
    requires previous != [] && FindFirst(previous, HasId(id, kind)) == Some(found)
    requires ParseIntNoRadix(found.position) == Some(before) && ParseIntNoRadix(currentPos) == Some(now)
    ensures PositionDelta(currentPos, Some(previous), id, kind) == Places(before - now)
  {
  }

  /** With numeric positions, an entry found in the previous standings at
      index `j`, and no earlier entry with its id, the delta is the number
      of places gained: positive when it moved up, zero when it kept its
      place, negative when it dropped. */
  lemma DeltaCountsPlaces(current: nat, previous: seq<Standing>, id: string, kind: TableKind, j: nat, before: nat)
    requires j < |previous| && IdFor(previous[j], kind) == id
    requires forall k | 0 <= k < j :: IdFor(previous[k], kind) != id
    requires previous[j].position == NatToString(before)
    ensures PositionDelta(NatToString(current), Some(previous), id, kind) == Places(before - current)
    ensures PositionDelta(NatToString(current), Some(previous), id, kind).d > 0 <==> current < before
  {
    FindFirstAt(previous, HasId(id, kind), j);
    ParseIntNoRadixNatToString(before);
    ParseIntNoRadixNatToString(current);
    DeltaOfFound(NatToString(current), previous, id, kind, previous[j], before, current);
  }

  const UpArrow := '\U{25B2}'
  const DownArrow := '\U{25BC}'

  /** The delta cell: an up arrow and the places gained, a down arrow and
      the places lost, a dash for no change, nothing for a new entry. NaN
      falls through to the down arrow, followed by "NaN". */
  function DeltaText(delta: Delta): (text: string)
    ensures text == "" <==> delta == NoDelta
    ensures text == Dash <==> delta == Places(0)
    ensures delta.Places? && delta.d > 0 ==> text[0] == UpArrow && ParseNat(text[1..]) == Some(delta.d)
    ensures delta.Places? && delta.d < 0 ==> text[0] == DownArrow && ParseNat(text[1..]) == Some(-delta.d)
    ensures delta == NotANumber ==> text == [DownArrow] + "NaN"
  {
    match delta
    case NoDelta => ""
    case NotANumber => [DownArrow] + "NaN"
    case Places(d) =>
      if d == 0 then Dash
      else if d > 0 then
        ParseNatToString(d);
        assert ([UpArrow] + NatToString(d))[1..] == NatToString(d);
        [UpArrow] + NatToString(d)
      else
        ParseNatToString(-d);
        assert ([DownArrow] + NatToString(-d))[1..] == NatToString(-d);
        [DownArrow] + NatToString(-d)
  }

  /** The arrow agrees with the move: up exactly when places were gained. */
  lemma ArrowShowsMove(current: nat, previous: seq<Standing>, id: string, kind: TableKind, j: nat, before: nat)
    requires j < |previous| && IdFor(previous[j], kind) == id
    requires forall k | 0 <= k < j :: IdFor(previous[k], kind) != id
    requires previous[j].position == NatToString(before)
    ensures var text := DeltaText(PositionDelta(NatToString(current), Some(previous), id, kind));
      (text[0] == UpArrow <==> current < before)
      && (text == Dash <==> current == before)
      && (text[0] == DownArrow <==> current > before)
  {
    DeltaCountsPlaces(current, previous, id, kind, j, before);
  }
}
