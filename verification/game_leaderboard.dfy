/** The season standings of the game: the entries ordered by points, most
    first, with a medal for the first three places, a rank number for the
    rest, and an empty state when there are no entries. */
module GameLeaderboard {
  import opened Common
  import opened GameClient

  function NegatedPoints(e: LeaderboardEntry): int { -e.totalPoints }

  /** `[...entries].sort((a, b) => b.totalPoints - a.totalPoints)`: a copy
      ordered by points, most first. */
  function Standings(entries: seq<LeaderboardEntry>): (sorted: seq<LeaderboardEntry>)
    ensures |sorted| == |entries| && multiset(sorted) == multiset(entries)
    ensures forall i, j | 0 <= i < j < |sorted| :: sorted[i].totalPoints >= sorted[j].totalPoints
  {
    var sorted := SortBy(entries, NegatedPoints);
    assert forall i, j | 0 <= i < j < |sorted| :: NegatedPoints(sorted[i]) <= NegatedPoints(sorted[j]);
    sorted
  }

  datatype Medal = Gold | Silver | Bronze

  function MedalColor(m: Medal): string {
    match m
    case Gold => "#FFD700"
    case Silver => "#C0C0C0"
    case Bronze => "#CD7F32"
  }

  /** `getMedalIcon`: gold, silver and bronze for the first three places. */
  function MedalAt(i: nat): (m: Option<Medal>)
    ensures m.Some? <==> i < 3
    ensures i == 0 ==> m == Some(Gold)
    ensures i == 1 ==> m == Some(Silver)
    ensures i == 2 ==> m == Some(Bronze)
  {
    if i == 0 then Some(Gold) else if i == 1 then Some(Silver) else if i == 2 then Some(Bronze) else None
  }

  /** "race" for exactly one race, "races" otherwise. */
  function RaceLabel(raceCount: int): (text: string)
    ensures text == "race" <==> raceCount == 1
    ensures text == "races" <==> raceCount != 1
  {
    if raceCount == 1 then "race" else "races"
  }

  /** One rendered row: the entry, its medal or else its rank number,
      whether it is the signed-in user, and the race label. */
  datatype Row = Row(entry: LeaderboardEntry, medal: Option<Medal>, rank: Option<string>, isCurrentUser: bool, raceLabel: string)

  function RowAt(i: nat, entry: LeaderboardEntry, currentUserId: Option<string>): Row {
    var medal := MedalAt(i);
    Row(entry, medal, if medal.None? then Some(NatToString(i + 1)) else None,
      currentUserId == Some(entry.userId), RaceLabel(entry.raceCount))
  }

  /** The rendered list, or `None` for the empty state. */
  function LeaderboardRows(entries: seq<LeaderboardEntry>, currentUserId: Option<string>): (rows: Option<seq<Row>>)
    ensures rows.None? <==> entries == []
    ensures rows.Some? ==> |rows.value| == |entries|
  {
    var sorted := Standings(entries);
    if |sorted| == 0 then None
    else Some(seq(|sorted|, i requires 0 <= i < |sorted| => RowAt(i, sorted[i], currentUserId)))
  }

  /** The rows list every entry once, by points, most first; the first three
      carry the medals and every other row shows its place `i + 1`; only the
      signed-in user's row is marked. */
  lemma LeaderboardRowsSpec(entries: seq<LeaderboardEntry>, currentUserId: Option<string>)
    requires entries != []
    ensures var rows := LeaderboardRows(entries, currentUserId).value;
      multiset(MapSeq((r: Row) => r.entry, rows)) == multiset(entries)
      && (forall i, j | 0 <= i < j < |rows| :: rows[i].entry.totalPoints >= rows[j].entry.totalPoints)
      && (forall i | 0 <= i < |rows| :: (rows[i].medal.Some? <==> i < 3) && (rows[i].rank.Some? <==> i >= 3))
      && (forall i | 3 <= i < |rows| :: ParseNat(rows[i].rank.value) == Some(i + 1))
      && (forall i | 0 <= i < |rows| :: rows[i].isCurrentUser <==> currentUserId == Some(rows[i].entry.userId))
  {
    var sorted := Standings(entries);
    var rows := LeaderboardRows(entries, currentUserId).value;
    assert rows == seq(|sorted|, i requires 0 <= i < |sorted| => RowAt(i, sorted[i], currentUserId));
    forall i | 0 <= i < |rows|
      ensures rows[i].entry == sorted[i]
      ensures (rows[i].medal.Some? <==> i < 3) && (rows[i].rank.Some? <==> i >= 3)
      ensures rows[i].isCurrentUser <==> currentUserId == Some(rows[i].entry.userId)
    {
      assert rows[i] == RowAt(i, sorted[i], currentUserId);
    }
    assert MapSeq((r: Row) => r.entry, rows) == sorted;
    forall i | 3 <= i < |rows|
      ensures ParseNat(rows[i].rank.value) == Some(i + 1)
    {
      assert rows[i] == RowAt(i, sorted[i], currentUserId);
      ParseNatToString(i + 1);
    }
  }

  /** The first row has the most points of all entries. */
  lemma LeaderIsTop(entries: seq<LeaderboardEntry>, currentUserId: Option<string>, e: LeaderboardEntry)
    requires e in entries
    ensures LeaderboardRows(entries, currentUserId).Some?
    ensures LeaderboardRows(entries, currentUserId).value[0].entry.totalPoints >= e.totalPoints
    ensures LeaderboardRows(entries, currentUserId).value[0].medal == Some(Gold)
  {
    var sorted := Standings(entries);
    PermutationMembers(sorted, entries, e);
    var k :| 0 <= k < |sorted| && sorted[k] == e;
  }
}
