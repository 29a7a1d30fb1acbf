/** The game page's own logic: the user's predictions per session type, the
    season leaderboard grouped per user, the user's cumulative points chart,
    the profile defaults posted for sessions without a prediction, and the
    pick of the qualifying and race sessions shown on the board. Database
    reads and the save route's answers are parameters. */
module GameClient {
  import opened Common
  import opened F1Types
  import opened TimingFormat
  import opened GamePredictions
  import opened GameSchedule

  // ---------------------------------------------------------------------------
  // The predictions per session type

  /** The `predictions` record: one optional prediction per session type. */
  datatype SessionPredictions = SessionPredictions(
    qualifying: Option<Prediction>,
    race: Option<Prediction>,
    sprintQualifying: Option<Prediction>,
    sprint: Option<Prediction>)
  {
    function Get(t: GameSessionType): Option<Prediction> {
      match t
      case Qualifying => qualifying
      case Race => race
      case SprintQualifying => sprintQualifying
      case Sprint => sprint
    }

    /** `preds[t] = p`. */
    function Set(t: GameSessionType, p: Option<Prediction>): (r: SessionPredictions)
      ensures r.Get(t) == p
      ensures forall u | u != t :: r.Get(u) == Get(u)
    {
      match t
      case Qualifying => this.(qualifying := p)
      case Race => this.(race := p)
      case SprintQualifying => this.(sprintQualifying := p)
      case Sprint => this.(sprint := p)
    }
  }

  const NoPredictions := SessionPredictions(None, None, None, None)

  /** The record after the loaded rows have been written into it in order. */
  function LoadedPredictions(rows: seq<Prediction>): SessionPredictions
    decreases |rows|
  {
    if rows == [] then NoPredictions
    else
      var n := |rows| - 1;
      LoadedPredictions(rows[..n]).Set(rows[n].sessionType, Some(rows[n]))
  }

  /** Row `i` is the last row of session type `t`. */
  ghost predicate LastOfType(rows: seq<Prediction>, t: GameSessionType, i: int) {
    0 <= i < |rows| && rows[i].sessionType == t && forall j | i < j < |rows| :: rows[j].sessionType != t
  }

  /** Every session type starts empty and ends with the last loaded row of
      that type, if any. */
  lemma {:induction false} LoadedPredictionsSpec(rows: seq<Prediction>, t: GameSessionType)
    ensures LoadedPredictions(rows).Get(t).None? <==> forall i | 0 <= i < |rows| :: rows[i].sessionType != t
    ensures LoadedPredictions(rows).Get(t).Some? ==>
      exists i :: LastOfType(rows, t, i) && rows[i] == LoadedPredictions(rows).Get(t).value
    decreases |rows|
  {
    if rows != [] {
      var n := |rows| - 1;
      var prefix := rows[..n];
      LoadedPredictionsSpec(prefix, t);
      assert forall i | 0 <= i < n :: prefix[i] == rows[i];
      if rows[n].sessionType == t {
        assert LastOfType(rows, t, n);
      } else if LoadedPredictions(prefix).Get(t).Some? {
        var i :| LastOfType(prefix, t, i) && prefix[i] == LoadedPredictions(prefix).Get(t).value;
        assert LastOfType(rows, t, i);
      }
    }
  }

  /** `loadPredictions`: with rows, a fresh record filled by the loop; a
      failed read leaves the record as it was. */
  method LoadPredictions(data: Option<seq<Prediction>>, current: SessionPredictions) returns (preds: SessionPredictions)
    ensures data.None? ==> preds == current
    ensures data.Some? ==> preds == LoadedPredictions(data.value)
  {
    if data.None? {
      return current;
    }
    var rows := data.value;
    preds := NoPredictions;
    var i := 0;
    while i < |rows|
      invariant 0 <= i <= |rows|
      invariant preds == LoadedPredictions(rows[..i])
    {
      assert rows[..i + 1][..i] == rows[..i];
      preds := preds.Set(rows[i].sessionType, Some(rows[i]));
      i := i + 1;
    }
    assert rows[..i] == rows;
  }

  // ---------------------------------------------------------------------------
  // The leaderboard

  /** One row of `game_scores`. */
  datatype GameScore = GameScore(userId: string, totalPoints: int, round: int, sessionType: GameSessionType)

  function ScoreRound(s: GameScore): int { s.round }

  /** A user's running total and the rounds seen for them. */
  datatype Tally = Tally(total: int, rounds: set<int>)

  /** The sum of `total_points`. */
  function SumPoints(scores: seq<GameScore>): int
    decreases |scores|
  {
    if scores == [] then 0 else SumPoints(scores[..|scores| - 1]) + scores[|scores| - 1].totalPoints
  }

  /** The scores of one user, in input order. */
  function UserScores(scores: seq<GameScore>, u: string): seq<GameScore> {
    Filter(scores, (s: GameScore) => s.userId == u)
  }

  ghost predicate HasScore(scores: seq<GameScore>, u: string) {
    exists s | s in scores :: s.userId == u
  }

  ghost predicate PlayedRound(scores: seq<GameScore>, u: string, r: int) {
    exists s | s in scores :: s.userId == u && s.round == r
  }

  /** The `userMap` after the grouping loop has seen every score. */
  function Grouped(scores: seq<GameScore>): map<string, Tally>
    decreases |scores|
  {
    if scores == [] then map[]
    else
      var n := |scores| - 1;
      var g := Grouped(scores[..n]);
      var s := scores[n];
      var existing := if s.userId in g then g[s.userId] else Tally(0, {});
      g[s.userId := Tally(existing.total + s.totalPoints, existing.rounds + {s.round})]
  }

  /** The keys of `userMap` in insertion order, the order `Map` iterates. */
  function FirstSeenOrder(scores: seq<GameScore>): seq<string>
    decreases |scores|
  {
    if scores == [] then []
    else
      var n := |scores| - 1;
      var order := FirstSeenOrder(scores[..n]);
      if scores[n].userId in order then order else order + [scores[n].userId]
  }

  /** The grouping loop: the map and its key order. */
  method GroupScores(scores: seq<GameScore>) returns (userMap: map<string, Tally>, order: seq<string>)
    ensures userMap == Grouped(scores)
    ensures order == FirstSeenOrder(scores)
  {
    userMap := map[];
    order := [];
    var i := 0;
    while i < |scores|
      invariant 0 <= i <= |scores|
      invariant userMap == Grouped(scores[..i])
      invariant order == FirstSeenOrder(scores[..i])
    {
      assert scores[..i + 1][..i] == scores[..i];
      var s := scores[i];
      var existing := if s.userId in userMap then userMap[s.userId] else Tally(0, {});
      if s.userId !in order {
        order := order + [s.userId];
      }
      userMap := userMap[s.userId := Tally(existing.total + s.totalPoints, existing.rounds + {s.round})];
      i := i + 1;
    }
    assert scores[..i] == scores;
  }

  /** A user is grouped iff they have a score. */
  lemma {:induction false} GroupedKeys(scores: seq<GameScore>, u: string)
    ensures u in Grouped(scores) <==> HasScore(scores, u)
    decreases |scores|
  {
    if scores != [] {
      var n := |scores| - 1;
      GroupedKeys(scores[..n], u);
      assert scores == scores[..n] + [scores[n]];
    }
  }

  lemma SumPointsAppendOne(a: seq<GameScore>, x: GameScore)
    ensures SumPoints(a + [x]) == SumPoints(a) + x.totalPoints
  {
    assert (a + [x])[..|a|] == a;
  }

  /** The last score joins its user's scores. */
  lemma UserScoresStep(scores: seq<GameScore>, u: string)
    requires scores != []
    ensures var n := |scores| - 1;
      UserScores(scores, u)
      == if scores[n].userId == u then UserScores(scores[..n], u) + [scores[n]] else UserScores(scores[..n], u)
  {
  }

  /** A user without scores has no points. */
  lemma NoScoresNoPoints(scores: seq<GameScore>, u: string)
    requires !HasScore(scores, u)
    ensures SumPoints(UserScores(scores, u)) == 0
  {
  }

  /** A grouped user's total is the sum of their scores. */
  lemma {:induction false} GroupedTotal(scores: seq<GameScore>, u: string)
    requires u in Grouped(scores)
    ensures Grouped(scores)[u].total == SumPoints(UserScores(scores, u))
    decreases |scores|
  {
    var n := |scores| - 1;
    var prefix := scores[..n];
    var x := scores[n];
    UserScoresStep(scores, u);
    if x.userId == u {
      SumPointsAppendOne(UserScores(prefix, u), x);
      if u in Grouped(prefix) {
        GroupedTotal(prefix, u);
      } else {
        GroupedKeys(prefix, u);
        NoScoresNoPoints(prefix, u);
      }
    } else {
      GroupedTotal(prefix, u);
    }
  }

  /** A grouped user's rounds are exactly the rounds of their scores. */
  lemma {:induction false} GroupedRounds(scores: seq<GameScore>, u: string, r: int)
    requires u in Grouped(scores)
    ensures r in Grouped(scores)[u].rounds <==> PlayedRound(scores, u, r)
    decreases |scores|
  {
    var n := |scores| - 1;
    var prefix := scores[..n];
    var x := scores[n];
    assert scores == prefix + [x];
    if u in Grouped(prefix) {
      GroupedRounds(prefix, u, r);
    } else {
      GroupedKeys(prefix, u);
    }
    assert PlayedRound(scores, u, r) <==> PlayedRound(prefix, u, r) || (x.userId == u && x.round == r);
  }

  /** The key order lists every grouped user once. */
  lemma {:induction false} FirstSeenOrderSpec(scores: seq<GameScore>)
    ensures Distinct(FirstSeenOrder(scores))
    ensures forall u :: u in FirstSeenOrder(scores) <==> HasScore(scores, u)
    decreases |scores|
  {
    if scores != [] {
      var n := |scores| - 1;
      var prefix := scores[..n];
      FirstSeenOrderSpec(prefix);
      assert scores == prefix + [scores[n]];
      var order := FirstSeenOrder(prefix);
      if scores[n].userId !in order {
        AppendDistinct(order, scores[n].userId);
      }
    }
  }

  /** A `profiles` row. */
  datatype Profile = Profile(id: string, username: Option<string>, avatarUrl: Option<string>)

  datatype LeaderboardEntry = LeaderboardEntry(
    userId: string,
    username: string,
    avatarUrl: Option<string>,
    totalPoints: int,
    raceCount: nat)

  function EntryUser(e: LeaderboardEntry): string { e.userId }

  function IsProfileOf(userId: string): Profile -> bool {
    (p: Profile) => p.id == userId
  }

  /** When the user has a profile, the entry shows the first such profile's
      name (or "Unknown" when the name is missing or empty) and its avatar
      (none when the link is missing or empty). */
  lemma EntryForFound(userId: string, tally: Tally, profiles: seq<Profile>, i: nat)
    requires i < |profiles| && profiles[i].id == userId
    requires forall j | 0 <= j < i :: profiles[j].id != userId
    ensures EntryFor(userId, tally, Some(profiles)).username == OrStr(profiles[i].username.GetOr(""), "Unknown")
    ensures EntryFor(userId, tally, Some(profiles)).avatarUrl == OrNull(profiles[i].avatarUrl)
  {
    FindFirstAt(profiles, IsProfileOf(userId), i);
  }

  /** One entry: the profile's name or "Unknown", the total and the number of
      distinct rounds. */
  function EntryFor(userId: string, tally: Tally, profiles: Option<seq<Profile>>): (e: LeaderboardEntry)
    ensures e.userId == userId && e.totalPoints == tally.total && e.raceCount == |tally.rounds|
    ensures profiles.None? ==> e.username == "Unknown" && e.avatarUrl.None?
    ensures (profiles.Some? && forall j | 0 <= j < |profiles.value| :: profiles.value[j].id != userId) ==>
      e.username == "Unknown" && e.avatarUrl.None?
  {
    var profile := if profiles.None? then None else FindFirst(profiles.value, IsProfileOf(userId));
    if profile.None? then LeaderboardEntry(userId, "Unknown", None, tally.total, |tally.rounds|)
    else LeaderboardEntry(userId, OrStr(profile.value.username.GetOr(""), "Unknown"), OrNull(profile.value.avatarUrl),
      tally.total, |tally.rounds|)
  }

  /** The entries, one per grouped user in first-seen order. */
  function LeaderboardEntries(scores: seq<GameScore>, profiles: Option<seq<Profile>>): (entries: seq<LeaderboardEntry>)
    ensures |entries| == |FirstSeenOrder(scores)|
  {
    var order := FirstSeenOrder(scores);
    var g := Grouped(scores);
    FirstSeenOrderSpec(scores);
    forall u | u in order
      ensures u in g
    {
      GroupedKeys(scores, u);
    }
    seq(|order|, i requires 0 <= i < |order| => EntryFor(order[i], g[order[i]], profiles))
  }

  ghost predicate HasEntry(entries: seq<LeaderboardEntry>, u: string) {
    exists e | e in entries :: e.userId == u
  }

  /** Every user with a score has exactly one entry, whose points are the
      sum of their scores and whose race count is their number of distinct
      rounds. */
  lemma LeaderboardEntriesSpec(scores: seq<GameScore>, profiles: Option<seq<Profile>>, u: string)
    ensures var entries := LeaderboardEntries(scores, profiles);
      DistinctBy(entries, EntryUser)
      && (HasEntry(entries, u) <==> HasScore(scores, u))
    ensures forall e | e in LeaderboardEntries(scores, profiles) ::
      e.totalPoints == SumPoints(UserScores(scores, e.userId))
  {
    var entries := LeaderboardEntries(scores, profiles);
    var order := FirstSeenOrder(scores);
    FirstSeenOrderSpec(scores);
    assert forall i | 0 <= i < |entries| :: entries[i].userId == order[i];
    if HasScore(scores, u) {
      assert u in order;
      var i :| 0 <= i < |order| && order[i] == u;
      assert entries[i] in entries;
    }
    forall e | e in entries
      ensures e.totalPoints == SumPoints(UserScores(scores, e.userId))
    {
      var i :| 0 <= i < |entries| && entries[i] == e;
      GroupedKeys(scores, e.userId);
      GroupedTotal(scores, e.userId);
    }
  }

  /** A user's race count is the number of distinct rounds they scored in. */
  lemma RaceCountIsRounds(scores: seq<GameScore>, profiles: Option<seq<Profile>>, e: LeaderboardEntry, r: int)
    requires e in LeaderboardEntries(scores, profiles)
    ensures e.userId in Grouped(scores) && e.raceCount == |Grouped(scores)[e.userId].rounds|
    ensures r in Grouped(scores)[e.userId].rounds <==> PlayedRound(scores, e.userId, r)
  {
    var order := FirstSeenOrder(scores);
    FirstSeenOrderSpec(scores);
    var i :| 0 <= i < |LeaderboardEntries(scores, profiles)| && LeaderboardEntries(scores, profiles)[i] == e;
    assert e.userId == order[i];
    GroupedKeys(scores, e.userId);
    GroupedRounds(scores, e.userId, r);
  }

  // ---------------------------------------------------------------------------
  // The points chart

  datatype ChartPoint = ChartPoint(round: int, raceName: string, points: int, cumulative: int)

  /** The chart's input: the user's scores sorted by round. */
  function ChartScores(scores: seq<GameScore>, u: string): seq<GameScore> {
    SortBy(UserScores(scores, u), ScoreRound)
  }

  /** Point `i` shows score `i` with the sum of the scores up to it. */
  ghost predicate IsChartOf(chart: seq<ChartPoint>, userScores: seq<GameScore>) {
    |chart| == |userScores|
    && forall i | 0 <= i < |chart| ::
      chart[i] == ChartPoint(userScores[i].round, "R" + IntToString(userScores[i].round),
        userScores[i].totalPoints, SumPoints(userScores[..i + 1]))
  }

  /** Point `i` shows score `i` of `userScores` with the sum up to it. */
  ghost predicate PointFor(p: ChartPoint, userScores: seq<GameScore>, i: int)
    requires 0 <= i < |userScores|
  {
    p == ChartPoint(userScores[i].round, "R" + IntToString(userScores[i].round),
      userScores[i].totalPoints, SumPoints(userScores[..i + 1]))
  }

  /** Appending a score appends its point with the new running sum. */
  lemma ChartStep(chart: seq<ChartPoint>, done: seq<GameScore>, s: GameScore)
    requires IsChartOf(chart, done)
    ensures IsChartOf(chart + [ChartPoint(s.round, "R" + IntToString(s.round), s.totalPoints, SumPoints(done) + s.totalPoints)], done + [s])
  {
    var all := done + [s];
    var c := chart + [ChartPoint(s.round, "R" + IntToString(s.round), s.totalPoints, SumPoints(done) + s.totalPoints)];
    forall j | 0 <= j < |done|
      ensures PointFor(c[j], all, j)
    {
      assert all[..j + 1] == done[..j + 1];
      assert c[j] == chart[j] && all[j] == done[j];
      assert PointFor(chart[j], done, j);
    }
    assert all[..|done| + 1] == all;
    SumPointsAppendOne(done, s);
    assert PointFor(c[|done|], all, |done|);
    forall j | 0 <= j < |c|
      ensures c[j] == ChartPoint(all[j].round, "R" + IntToString(all[j].round), all[j].totalPoints, SumPoints(all[..j + 1]))
    {
      assert PointFor(c[j], all, j);
    }
  }

  /** The chart loop with its running `cumulative`. */
  method BuildChart(userScores: seq<GameScore>) returns (chart: seq<ChartPoint>)
    ensures IsChartOf(chart, userScores)
  {
    chart := [];
    var cumulative := 0;
    var i := 0;
    while i < |userScores|
      invariant 0 <= i <= |userScores|
      invariant cumulative == SumPoints(userScores[..i])
      invariant IsChartOf(chart, userScores[..i])
    {
      var s := userScores[i];
      assert userScores[..i + 1] == userScores[..i] + [s];
      ChartStep(chart, userScores[..i], s);
      cumulative := cumulative + s.totalPoints;
      chart := chart + [ChartPoint(s.round, "R" + IntToString(s.round), s.totalPoints, cumulative)];
      i := i + 1;
    }
    assert userScores[..i] == userScores;
  }

  lemma {:induction false} SumPointsAppend(a: seq<GameScore>, b: seq<GameScore>)
    ensures SumPoints(a + b) == SumPoints(a) + SumPoints(b)
    decreases |b|
  {
    if b == [] {
      assert a + b == a;
    } else {
      var n := |b| - 1;
      SumPointsAppend(a, b[..n]);
      assert (a + b)[..|a + b| - 1] == a + b[..n];
    }
  }

  /** Taking one score out of a sequence takes it out of the multiset. */
  lemma MultisetRemove(b: seq<GameScore>, k: nat)
    requires k < |b|
    ensures multiset(b[..k] + b[k + 1..]) == multiset(b) - multiset{b[k]}
  {
    assert b == b[..k] + [b[k]] + b[k + 1..];
  }

  /** Taking one score out of a sequence takes its points out of the sum. */
  lemma SumPointsRemove(b: seq<GameScore>, k: nat)
    requires k < |b|
    ensures SumPoints(b) == SumPoints(b[..k] + b[k + 1..]) + b[k].totalPoints
  {
    var head := b[..k];
    var tail := b[k + 1..];
    var x := b[k];
    var upTo := b[..k + 1];
    assert upTo == head + [x];
    assert b == upTo + tail;
    SumPointsAppend(upTo, tail);
    SumPointsAppendOne(head, x);
    SumPointsAppend(head, tail);
  }

  /** Taking the same score out of two permutations of each other leaves
      permutations. */
  lemma MultisetPeel(a: seq<GameScore>, b: seq<GameScore>, k: nat)
    requires a != [] && multiset(a) == multiset(b)
    requires k < |b| && b[k] == a[|a| - 1]
    ensures multiset(a[..|a| - 1]) == multiset(b[..k] + b[k + 1..])
  {
    var n := |a| - 1;
    assert a == a[..n] + [a[n]];
    assert multiset(a) == multiset(a[..n]) + multiset{a[n]};
    MultisetRemove(b, k);
  }

  /** Reordering scores does not change their sum. */
  lemma {:induction false} SumPointsPermutation(a: seq<GameScore>, b: seq<GameScore>)
    requires multiset(a) == multiset(b)
    ensures SumPoints(a) == SumPoints(b)
    decreases |a|
  {
    if a == [] {
      assert |b| == |multiset(b)| == 0;
    } else {
      var n := |a| - 1;
      var x := a[n];
      assert x in multiset(b);
      var k :| 0 <= k < |b| && b[k] == x;
      MultisetPeel(a, b, k);
      SumPointsRemove(b, k);
      SumPointsPermutation(a[..n], b[..k] + b[k + 1..]);
    }
  }

  /** The chart runs in round order and its last point is the user's
      leaderboard total. */
  lemma ChartEndsAtTotal(scores: seq<GameScore>, u: string, chart: seq<ChartPoint>)
    requires IsChartOf(chart, ChartScores(scores, u))
    requires chart != []
    ensures forall i, j | 0 <= i < j < |chart| :: chart[i].round <= chart[j].round
    ensures u in Grouped(scores) && chart[|chart| - 1].cumulative == Grouped(scores)[u].total
  {
    var sorted := ChartScores(scores, u);
    var mine := UserScores(scores, u);
    assert forall i | 0 <= i < |chart| :: chart[i].round == ScoreRound(sorted[i]);
    assert sorted[0] in multiset(mine);
    assert sorted[0] in mine;
    GroupedKeys(scores, u);
    GroupedTotal(scores, u);
    SumPointsPermutation(sorted, mine);
    assert sorted[..|chart|] == sorted;
  }

  /** `loadLeaderboard`: nothing changes without scores; otherwise the
      entries, and the chart when a user is signed in. */
  method LoadLeaderboard(scores: Option<seq<GameScore>>, profiles: Option<seq<Profile>>, user: Option<string>)
    returns (entries: Option<seq<LeaderboardEntry>>, chart: Option<seq<ChartPoint>>)
    ensures entries.None? <==> scores.None? || scores.value == []
    ensures entries.Some? ==> entries.value == LeaderboardEntries(scores.value, profiles)
    ensures chart.Some? <==> entries.Some? && user.Some?
    ensures chart.Some? ==> IsChartOf(chart.value, ChartScores(scores.value, user.value))
  {
    if scores.None? || scores.value == [] {
      return None, None;
    }
    var userMap, order := GroupScores(scores.value);
    FirstSeenOrderSpec(scores.value);
    forall u | u in order
      ensures u in userMap
    {
      GroupedKeys(scores.value, u);
    }
    entries := Some(seq(|order|, i requires 0 <= i < |order| => EntryFor(order[i], userMap[order[i]], profiles)));
    if user.None? {
      return entries, None;
    }
    var points := BuildChart(ChartScores(scores.value, user.value));
    chart := Some(points);
  }

  // ---------------------------------------------------------------------------
  // Default predictions

  /** The profile's default picks. */
  datatype DefaultPicks = DefaultPicks(pole: Option<string>, p1: Option<string>, p2: Option<string>, p3: Option<string>)

  /** The body posted for a session: the default pole only for a qualifying
      session, empty picks as null, marked as a default. */
  function DefaultRequest(schedule: WeekendSchedule, sessionType: GameSessionType, d: DefaultPicks): (body: SaveRequest)
    ensures body.sessionType == sessionType && body.isDefault == Some(true)
    ensures body.season == schedule.season && body.round == schedule.round
    ensures body.pole == (if HasPole(sessionType) then OrNull(d.pole) else None)
    ensures body.p1 == OrNull(d.p1) && body.p2 == OrNull(d.p2) && body.p3 == OrNull(d.p3)
  {
    var pole := if HasPole(sessionType) then d.pole else None;
    SaveRequest(schedule.season, schedule.round, sessionType,
      OrNull(pole), OrNull(d.p1), OrNull(d.p2), OrNull(d.p3), Some(true))
  }

  /** A session gets a default iff it has no prediction, is not locked, and
      a P1 default or (for a qualifying session) a pole default exists. */
  predicate WantsDefault(session: SessionSchedule, preds: SessionPredictions, d: DefaultPicks) {
    preds.Get(session.sessionType).None? && !session.isLocked
    && (Truthy(d.p1) || (HasPole(session.sessionType) && Truthy(d.pole)))
  }

  /** The bodies posted, in session order. */
  function DefaultRequests(schedule: WeekendSchedule, sessions: seq<SessionSchedule>, preds: SessionPredictions, d: DefaultPicks): seq<SaveRequest>
    decreases |sessions|
  {
    if sessions == [] then []
    else
      var n := |sessions| - 1;
      var earlier := DefaultRequests(schedule, sessions[..n], preds, d);
      if WantsDefault(sessions[n], preds, d) then earlier + [DefaultRequest(schedule, sessions[n].sessionType, d)]
      else earlier
  }

  /** The record after the saved defaults have been written in;
      `respond(body)` is the route's saved prediction, `None` when the
      response is not ok. */
  function AfterDefaults(
    schedule: WeekendSchedule, sessions: seq<SessionSchedule>, preds: SessionPredictions, d: DefaultPicks,
    respond: SaveRequest -> Option<Prediction>): SessionPredictions
    decreases |sessions|
  {
    if sessions == [] then preds
    else
      var n := |sessions| - 1;
      var earlier := AfterDefaults(schedule, sessions[..n], preds, d, respond);
      var s := sessions[n];
      if WantsDefault(s, preds, d) && respond(DefaultRequest(schedule, s.sessionType, d)).Some? then
        earlier.Set(s.sessionType, respond(DefaultRequest(schedule, s.sessionType, d)))
      else earlier
  }

  /** Body `r` was posted for an unlocked session without a prediction. */
  ghost predicate RequestedFor(r: SaveRequest, schedule: WeekendSchedule, sessions: seq<SessionSchedule>, preds: SessionPredictions, d: DefaultPicks) {
    exists s | s in sessions :: WantsDefault(s, preds, d) && r == DefaultRequest(schedule, s.sessionType, d)
  }

  /** A default is posted exactly for each session that wants one. */
  lemma {:induction false} DefaultRequestsSpec(schedule: WeekendSchedule, sessions: seq<SessionSchedule>, preds: SessionPredictions, d: DefaultPicks)
    ensures forall r | r in DefaultRequests(schedule, sessions, preds, d) :: RequestedFor(r, schedule, sessions, preds, d)
    ensures forall s | s in sessions && WantsDefault(s, preds, d) ::
      DefaultRequest(schedule, s.sessionType, d) in DefaultRequests(schedule, sessions, preds, d)
    decreases |sessions|
  {
    if sessions != [] {
      var n := |sessions| - 1;
      DefaultRequestsSpec(schedule, sessions[..n], preds, d);
      assert sessions == sessions[..n] + [sessions[n]];
    }
  }

  /** A posted default never goes to a session that has a prediction or is
      locked; it carries a pole only for a qualifying session, and always a
      P1 or a pole. */
  lemma DefaultRequestsSafe(schedule: WeekendSchedule, preds: SessionPredictions, d: DefaultPicks, r: SaveRequest)
    requires r in DefaultRequests(schedule, schedule.sessions, preds, d)
    ensures preds.Get(r.sessionType).None?
    ensures exists s | s in schedule.sessions :: s.sessionType == r.sessionType && !s.isLocked
    ensures !HasPole(r.sessionType) ==> r.pole.None?
    ensures Truthy(r.p1) || Truthy(r.pole)
    ensures r.isDefault == Some(true)
  {
    DefaultRequestsSpec(schedule, schedule.sessions, preds, d);
    var s :| s in schedule.sessions && WantsDefault(s, preds, d) && r == DefaultRequest(schedule, s.sessionType, d);
  }

  /** A prediction already present is never replaced, and every change
      stores the route's answer for a session that wanted a default. */
  lemma {:induction false} AfterDefaultsKeeps(
    schedule: WeekendSchedule, sessions: seq<SessionSchedule>, preds: SessionPredictions, d: DefaultPicks,
    respond: SaveRequest -> Option<Prediction>, t: GameSessionType)
    ensures preds.Get(t).Some? ==> AfterDefaults(schedule, sessions, preds, d, respond).Get(t) == preds.Get(t)
    ensures AfterDefaults(schedule, sessions, preds, d, respond).Get(t) != preds.Get(t) ==>
      exists s | s in sessions :: s.sessionType == t && WantsDefault(s, preds, d)
        && AfterDefaults(schedule, sessions, preds, d, respond).Get(t) == respond(DefaultRequest(schedule, t, d))
    decreases |sessions|
  {
    if sessions != [] {
      var n := |sessions| - 1;
      AfterDefaultsKeeps(schedule, sessions[..n], preds, d, respond, t);
      assert sessions == sessions[..n] + [sessions[n]];
    }
  }

  /** `applyDefaults`: without a profile nothing is posted; otherwise one
      body per session that wants a default, and every ok answer is stored
      for its session. The skip test reads the record as it was when the
      effect started. */
  method ApplyDefaults(schedule: WeekendSchedule, preds: SessionPredictions, profile: Option<DefaultPicks>,
    respond: SaveRequest -> Option<Prediction>)
    returns (requests: seq<SaveRequest>, updated: SessionPredictions)
    ensures profile.None? ==> requests == [] && updated == preds
    ensures profile.Some? ==> requests == DefaultRequests(schedule, schedule.sessions, preds, profile.value)
    ensures profile.Some? ==> updated == AfterDefaults(schedule, schedule.sessions, preds, profile.value, respond)
  {
    requests := [];
    updated := preds;
    if profile.None? {
      return;
    }
    var d := profile.value;
    var sessions := schedule.sessions;
    var i := 0;
    while i < |sessions|
      invariant 0 <= i <= |sessions|
      invariant requests == DefaultRequests(schedule, sessions[..i], preds, d)
      invariant updated == AfterDefaults(schedule, sessions[..i], preds, d, respond)
    {
      assert sessions[..i + 1][..i] == sessions[..i];
      var session := sessions[i];
      i := i + 1;
      if preds.Get(session.sessionType).Some? {
        continue;
      }
      if session.isLocked {
        continue;
      }
      var hasPole := session.sessionType == Qualifying || session.sessionType == SprintQualifying;
      var pole := if hasPole then d.pole else None;
      if Truthy(d.p1) || Truthy(pole) {
        var body := DefaultRequest(schedule, session.sessionType, d);
        requests := requests + [body];
        var saved := respond(body);
        if saved.None? {
          continue;
        }
        updated := updated.Set(session.sessionType, saved);
      }
    }
    assert sessions[..i] == sessions;
  }

  // ---------------------------------------------------------------------------
  // The sessions on the board

  /** The first qualifying or sprint-qualifying entry. */
  function QualiSession(sessions: seq<SessionSchedule>): Option<SessionSchedule> {
    FindFirst(sessions, (s: SessionSchedule) => HasPole(s.sessionType))
  }

  /** The first race entry. */
  function RaceSession(sessions: seq<SessionSchedule>): Option<SessionSchedule> {
    FindFirst(sessions, (s: SessionSchedule) => s.sessionType == Race)
  }

  /** The board is shown iff both sessions are found. */
  predicate ValidSchedule(sessions: seq<SessionSchedule>) {
    QualiSession(sessions).Some? && RaceSession(sessions).Some?
  }

  /** `find` succeeds iff some element passes. */
  lemma FindFirstFinds<T>(s: seq<T>, p: T -> bool)
    ensures FindFirst(s, p).Some? <==> exists x | x in s :: p(x)
  {
    if exists x | x in s :: p(x) {
      var x :| x in s && p(x);
      var k :| 0 <= k < |s| && s[k] == x;
    }
  }

  /** A built schedule always has its race, and is valid iff the weekend has
      a qualifying or a sprint with its sprint qualifying. */
  lemma BuiltScheduleValid(race: CalendarRace, now: int)
    ensures RaceSession(BuildWeekendSchedule(race, now).sessions).Some?
    ensures ValidSchedule(BuildWeekendSchedule(race, now).sessions)
      <==> race.qualifying.Some? || (race.sprint.Some? && race.sprintQualifying.Some?)
  {
    var sessions := BuildWeekendSchedule(race, now).sessions;
    WeekendScheduleSpec(race, now);
    FindFirstFinds(sessions, (s: SessionSchedule) => HasPole(s.sessionType));
    FindFirstFinds(sessions, (s: SessionSchedule) => s.sessionType == Race);
    assert (exists s | s in sessions :: HasPole(s.sessionType))
      <==> ((exists s | s in sessions :: s.sessionType == Qualifying)
        || (exists s | s in sessions :: s.sessionType == SprintQualifying));
  }
}
