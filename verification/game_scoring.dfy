/** The scoring route of the prediction game: the actual podium is read from
    the results, profile defaults are merged into the saved predictions, and
    every effective prediction is scored for the pole, the three exact places
    and the "right driver, wrong place" bonus. Only race and sprint sessions
    are scored. The database and the results feed are parameters: the saved
    predictions, the profile defaults and the result lists arrive as values,
    and the upsert's success is a flag. */
module GameScoring {
  import opened Common
  import opened F1Types

  /** A saved prediction as the route reads it. */
  datatype StoredPrediction = StoredPrediction(
    userId: string,
    pole: Option<string>,
    p1: Option<string>,
    p2: Option<string>,
    p3: Option<string>)

  /** A profile's default picks. */
  datatype UserDefaults = UserDefaults(
    id: string,
    pole: Option<string>,
    p1: Option<string>,
    p2: Option<string>,
    p3: Option<string>)

  /** The actual pole sitter and podium; `None` where unknown. */
  datatype Podium = Podium(pole: Option<string>, p1: Option<string>, p2: Option<string>, p3: Option<string>)

  /** The points of one prediction. */
  datatype Score = Score(pole: nat, p1: nat, p2: nat, p3: nat, bonus: nat, total: nat)

  // ---------------------------------------------------------------------------
  // The actual podium

  /** `results[i]?.Driver.driverId || null`. */
  function ResultAt(ids: seq<string>, i: nat): (id: Option<string>)
    ensures id.Some? <==> i < |ids| && ids[i] != ""
    ensures id.Some? ==> id.value == ids[i]
  {
    if i < |ids| then OrNull(Some(ids[i])) else None
  }

  /** The podium of the scored session; the pole comes from the qualifying
      classification and only for a race. */
  function ActualPodium(sessionType: GameSessionType, results: seq<string>, qualifying: seq<string>): (actual: Podium)
    ensures actual.p1 == ResultAt(results, 0) && actual.p2 == ResultAt(results, 1) && actual.p3 == ResultAt(results, 2)
    ensures actual.pole.Some? <==> sessionType == Race && qualifying != [] && qualifying[0] != ""
    ensures actual.pole.Some? ==> actual.pole.value == qualifying[0]
  {
    var pole := if sessionType == Race && |qualifying| > 0 then ResultAt(qualifying, 0) else None;
    Podium(pole, ResultAt(results, 0), ResultAt(results, 1), ResultAt(results, 2))
  }

  // ---------------------------------------------------------------------------
  // The bonus

  /** One predicted place beside the driver who actually took it. */
  datatype Slot = Slot(driver: Option<string>, actual: Option<string>)

  function PredictionOrder(pred: StoredPrediction, actual: Podium): seq<Slot> {
    [Slot(pred.p1, actual.p1), Slot(pred.p2, actual.p2), Slot(pred.p3, actual.p3)]
  }

  /** The predicted driver took exactly the predicted place. */
  predicate Exact(slot: Slot) {
    Truthy(slot.driver) && Truthy(slot.actual) && slot.driver.value == slot.actual.value
  }

  /** The drivers predicted in exactly the right place. */
  function ExactIds(slots: seq<Slot>): (ids: set<string>)
    ensures forall d :: d in ids <==> exists i | 0 <= i < |slots| :: Exact(slots[i]) && slots[i].driver.value == d
    decreases |slots|
  {
    if slots == [] then {}
    else
      var n := |slots| - 1;
      var ids := ExactIds(slots[..n]);
      assert forall i | 0 <= i < n :: slots[..n][i] == slots[i];
      if Exact(slots[n]) then ids + {slots[n].driver.value} else ids
  }

  /** The bonus candidates: predicted drivers neither exact in their own
      slot nor exactly matched anywhere. */
  function CandidateIds(slots: seq<Slot>, exact: set<string>): (ids: set<string>)
    ensures forall d :: d in ids <==> d !in exact && exists i | 0 <= i < |slots| ::
      Truthy(slots[i].driver) && !Exact(slots[i]) && slots[i].driver.value == d
    decreases |slots|
  {
    if slots == [] then {}
    else
      var n := |slots| - 1;
      var ids := CandidateIds(slots[..n], exact);
      assert forall i | 0 <= i < n :: slots[..n][i] == slots[i];
      var slot := slots[n];
      if Truthy(slot.driver) && !Exact(slot) && slot.driver.value !in exact then ids + {slot.driver.value} else ids
  }

  /** `actualTop3`: the known podium drivers in order. */
  function ActualTop3(actual: Podium): (top3: seq<string>)
    ensures |top3| <= 3
    ensures forall d :: d in top3 <==> d != "" && (actual.p1 == Some(d) || actual.p2 == Some(d) || actual.p3 == Some(d))
  {
    (if Truthy(actual.p1) then [actual.p1.value] else [])
    + (if Truthy(actual.p2) then [actual.p2.value] else [])
    + (if Truthy(actual.p3) then [actual.p3.value] else [])
  }

  /** The drivers that earn the bonus. */
  function BonusDrivers(pred: StoredPrediction, actual: Podium): set<string> {
    var slots := PredictionOrder(pred, actual);
    set d | d in CandidateIds(slots, ExactIds(slots)) && d in ActualTop3(actual)
  }

  /** The driver was predicted in some place. */
  predicate Predicted(pred: StoredPrediction, d: string) {
    d != "" && (pred.p1 == Some(d) || pred.p2 == Some(d) || pred.p3 == Some(d))
  }

  /** The driver was predicted in the place they took. */
  predicate ExactlyMatched(pred: StoredPrediction, actual: Podium, d: string) {
    d != "" && ((pred.p1 == Some(d) && actual.p1 == Some(d)) || (pred.p2 == Some(d) && actual.p2 == Some(d))
      || (pred.p3 == Some(d) && actual.p3 == Some(d)))
  }

  /** A driver earns the bonus iff they were predicted, finished on the
      podium, and were not exactly matched in any place. */
  lemma BonusDriversSpec(pred: StoredPrediction, actual: Podium, d: string)
    ensures d in BonusDrivers(pred, actual) <==>
      Predicted(pred, d) && d in ActualTop3(actual) && !ExactlyMatched(pred, actual, d)
  {
    var slots := PredictionOrder(pred, actual);
    assert slots[0] == Slot(pred.p1, actual.p1) && slots[1] == Slot(pred.p2, actual.p2) && slots[2] == Slot(pred.p3, actual.p3);
    if Predicted(pred, d) && d in ActualTop3(actual) && !ExactlyMatched(pred, actual, d) {
      var i := if pred.p1 == Some(d) then 0 else if pred.p2 == Some(d) then 1 else 2;
      assert Truthy(slots[i].driver) && !Exact(slots[i]) && slots[i].driver.value == d;
    }
  }

  /** A set of at most three podium names. */
  lemma {:induction false} BonusDriversBound(pred: StoredPrediction, actual: Podium)
    ensures |BonusDrivers(pred, actual)| <= 3
  {
    var top3 := ActualTop3(actual);
    var all := set d | d in top3;
    SeqSetBound(top3);
    SubsetBound(BonusDrivers(pred, actual), all);
  }

  lemma SubsetBound(a: set<string>, b: set<string>)
    requires a <= b
    ensures |a| <= |b|
  {
    assert b == a + (b - a);
    assert a * (b - a) == {};
  }

  lemma {:induction false} SeqSetBound(s: seq<string>)
    ensures |set d | d in s| <= |s|
    decreases |s|
  {
    if s != [] {
      var n := |s| - 1;
      SeqSetBound(s[..n]);
      assert (set d | d in s) == (set d | d in s[..n]) + {s[n]} by {
        assert s == s[..n] + [s[n]];
      }
    }
  }

  /** The bonus points: `bonus` for each bonus driver, so at most three
      times `bonus`. */
  function BonusPoints(pred: StoredPrediction, actual: Podium, bonus: nat): (points: nat)
    ensures points <= 3 * bonus
    ensures points == 0 <==> bonus == 0 || BonusDrivers(pred, actual) == {}
  {
    BonusDriversBound(pred, actual);
    bonus * |BonusDrivers(pred, actual)|
  }

  /** `scoreTop3`: marks the exact matches, collects the candidates, and
      pays `bonus` for each candidate on the actual podium. */
  method ScoreTop3(pred: StoredPrediction, actual: Podium, bonus: nat) returns (bonusPoints: nat)
    ensures bonusPoints == BonusPoints(pred, actual, bonus)
  {
    var top3 := ActualTop3(actual);
    var order := PredictionOrder(pred, actual);
    var exactMatched := MarkExact(order);
    var candidates := CollectCandidates(order, exactMatched);
    bonusPoints := PayCandidates(candidates, top3, bonus);
  }

  /** The first loop of `scoreTop3`: the drivers predicted in the place
      they took. */
  method MarkExact(order: seq<Slot>) returns (exactMatched: set<string>)
    ensures exactMatched == ExactIds(order)
  {
    exactMatched := {};
    var i := 0;
    while i < |order|
      invariant 0 <= i <= |order|
      invariant exactMatched == ExactIds(order[..i])
    {
      var slot := order[i];
      if Truthy(slot.driver) && Truthy(slot.actual) && slot.driver.value == slot.actual.value {
        exactMatched := exactMatched + {slot.driver.value};
      }
      assert order[..i + 1][..i] == order[..i];
      i := i + 1;
    }
    assert order[..i] == order;
  }

  /** The second loop of `scoreTop3`: the predicted drivers neither
      matched in their own place nor anywhere else. */
  method CollectCandidates(order: seq<Slot>, exactMatched: set<string>) returns (candidates: set<string>)
    ensures candidates == CandidateIds(order, exactMatched)
  {
    candidates := {};
    var i := 0;
    while i < |order|
      invariant 0 <= i <= |order|
      invariant candidates == CandidateIds(order[..i], exactMatched)
    {
      var slot := order[i];
      if Truthy(slot.driver) && !(Truthy(slot.actual) && slot.driver.value == slot.actual.value)
        && slot.driver.value !in exactMatched
      {
        candidates := candidates + {slot.driver.value};
      }
      assert order[..i + 1][..i] == order[..i];
      i := i + 1;
    }
    assert order[..i] == order;
  }

  /** The last loop of `scoreTop3`: `bonus` for each candidate found in the
      actual top three. */
  method PayCandidates(candidates: set<string>, top3: seq<string>, bonus: nat) returns (bonusPoints: nat)
    ensures bonusPoints == bonus * |set d | d in candidates && d in top3|
  {
    bonusPoints := 0;
    var remaining := candidates;
    while remaining != {}
      invariant remaining <= candidates
      invariant bonusPoints == bonus * |set d | d in candidates - remaining && d in top3|
      decreases |remaining|
    {
      var d :| d in remaining;
      ghost var before := set x | x in candidates - remaining && x in top3;
      ghost var after := set x | x in candidates - (remaining - {d}) && x in top3;
      if d in top3 {
        assert after == before + {d};
        bonusPoints := bonusPoints + bonus;
      } else {
        assert after == before;
      }
      remaining := remaining - {d};
    }
    assert candidates - remaining == candidates;
  }

  // ---------------------------------------------------------------------------
  // Scoring one prediction

  /** Sprints use the sprint table, races the race table. */
  function ScoringFor(sessionType: GameSessionType): (scoring: Scoring)
    ensures scoring == (if sessionType == Sprint then SprintScoring else RaceScoring)
    ensures sessionType == Race ==> scoring.pole == 25
  {
    if sessionType == Sprint then SprintScoring else RaceScoring
  }

  /** The points of one place: paid only for a present prediction equal to
      the actual driver. */
  function PlacePoints(predicted: Option<string>, actual: Option<string>, points: nat): (earned: nat)
    ensures earned == points || earned == 0
    ensures points > 0 ==> (earned == points <==> Truthy(predicted) && predicted == actual)
  {
    if Truthy(predicted) && predicted == actual then points else 0
  }

  /** The score of one effective prediction. */
  function PredictionScore(sessionType: GameSessionType, pred: StoredPrediction, actual: Podium): (s: Score)
    ensures var scoring := ScoringFor(sessionType);
      s.pole == (if sessionType == Race then PlacePoints(pred.pole, actual.pole, scoring.pole) else 0)
      && s.p1 == PlacePoints(pred.p1, actual.p1, scoring.p1)
      && s.p2 == PlacePoints(pred.p2, actual.p2, scoring.p2)
      && s.p3 == PlacePoints(pred.p3, actual.p3, scoring.p3)
      && s.bonus == BonusPoints(pred, actual, scoring.bonus)
    ensures s.total == s.pole + s.p1 + s.p2 + s.p3 + s.bonus
    ensures var scoring := ScoringFor(sessionType);
      s.total <= scoring.pole + scoring.p1 + scoring.p2 + scoring.p3 + 3 * scoring.bonus
  {
    var scoring := ScoringFor(sessionType);
    var pole := if sessionType == Race then PlacePoints(pred.pole, actual.pole, scoring.pole) else 0;
    var p1 := PlacePoints(pred.p1, actual.p1, scoring.p1);
    var p2 := PlacePoints(pred.p2, actual.p2, scoring.p2);
    var p3 := PlacePoints(pred.p3, actual.p3, scoring.p3);
    var bonus := BonusPoints(pred, actual, scoring.bonus);
    Score(pole, p1, p2, p3, bonus, pole + p1 + p2 + p3 + bonus)
  }

  /** A driver paid for an exact place never also earns the bonus. */
  lemma ExactNeverBonus(pred: StoredPrediction, actual: Podium, d: string)
    requires ExactlyMatched(pred, actual, d)
    ensures d !in BonusDrivers(pred, actual)
  {
    BonusDriversSpec(pred, actual, d);
  }

  /** A prediction matching the whole podium earns the three places and no
      bonus. */
  lemma PerfectPodium(sessionType: GameSessionType, pred: StoredPrediction, actual: Podium)
    requires Truthy(actual.p1) && Truthy(actual.p2) && Truthy(actual.p3)
    requires pred.p1 == actual.p1 && pred.p2 == actual.p2 && pred.p3 == actual.p3
    ensures var s := PredictionScore(sessionType, pred, actual);
      var scoring := ScoringFor(sessionType);
      s.p1 == scoring.p1 && s.p2 == scoring.p2 && s.p3 == scoring.p3 && s.bonus == 0
  {
    forall d | d in BonusDrivers(pred, actual)
      ensures false
    {
      BonusDriversSpec(pred, actual, d);
    }
  }

  /** The podium predicted in reverse order: the second place is exact,
      the winner and the third each earn the bonus. */
  lemma ReversedPodium(a: string, b: string, c: string, pred: StoredPrediction, actual: Podium)
    requires a != "" && b != "" && c != "" && a != b && b != c && a != c
    requires actual == Podium(None, Some(a), Some(b), Some(c))
    requires pred.p1 == Some(c) && pred.p2 == Some(b) && pred.p3 == Some(a)
    ensures PredictionScore(Race, pred, actual) == Score(0, 0, 18, 0, 20, 38)
  {
    ReversedPodiumBonus(a, b, c, pred, actual);
    assert |{a, c}| == 2;
  }

  /** The bonus drivers of the reversed podium: the winner and the third. */
  lemma ReversedPodiumBonus(a: string, b: string, c: string, pred: StoredPrediction, actual: Podium)
    requires a != "" && b != "" && c != "" && a != b && b != c && a != c
    requires actual == Podium(None, Some(a), Some(b), Some(c))
    requires pred.p1 == Some(c) && pred.p2 == Some(b) && pred.p3 == Some(a)
    ensures BonusDrivers(pred, actual) == {a, c}
  {
    BonusDriversSpec(pred, actual, a);
    BonusDriversSpec(pred, actual, c);
    forall d | d in BonusDrivers(pred, actual)
      ensures d == a || d == c
    {
      BonusDriversSpec(pred, actual, d);
    }
  }

  // ---------------------------------------------------------------------------
  // Merging profile defaults

  function UserDefaultsId(d: UserDefaults): string { d.id }

  /** The prediction a profile's defaults stand for; the pole default only
      counts for a race. */
  function Fallback(sessionType: GameSessionType, d: UserDefaults): (fallback: StoredPrediction)
    ensures fallback.userId == d.id
    ensures fallback.pole == (if sessionType == Race then d.pole else None)
    ensures fallback.p1 == d.p1 && fallback.p2 == d.p2 && fallback.p3 == d.p3
  {
    StoredPrediction(d.id, if sessionType == Race then d.pole else None, d.p1, d.p2, d.p3)
  }

  predicate AnyPick(p: StoredPrediction) {
    Truthy(p.pole) || Truthy(p.p1) || Truthy(p.p2) || Truthy(p.p3)
  }

  /** A saved prediction with its empty places filled from the fallback. */
  function FillFrom(existing: StoredPrediction, fallback: StoredPrediction): (filled: StoredPrediction)
    ensures filled.userId == existing.userId
    ensures Truthy(existing.pole) ==> filled.pole == existing.pole
    ensures !Truthy(existing.pole) ==> filled.pole == fallback.pole
    ensures Truthy(existing.p1) ==> filled.p1 == existing.p1
    ensures !Truthy(existing.p1) ==> filled.p1 == fallback.p1
    ensures Truthy(existing.p2) ==> filled.p2 == existing.p2
    ensures !Truthy(existing.p2) ==> filled.p2 == fallback.p2
    ensures Truthy(existing.p3) ==> filled.p3 == existing.p3
    ensures !Truthy(existing.p3) ==> filled.p3 == fallback.p3
  {
    StoredPrediction(existing.userId, Or(existing.pole, fallback.pole), Or(existing.p1, fallback.p1),
      Or(existing.p2, fallback.p2), Or(existing.p3, fallback.p3))
  }

  /** Filling twice from the same fallback changes nothing more. */
  lemma FillFromIdempotent(existing: StoredPrediction, fallback: StoredPrediction)
    ensures FillFrom(FillFrom(existing, fallback), fallback) == FillFrom(existing, fallback)
  {
  }

  /** The saved predictions by user; a later row for the same user wins. */
  function SavedMap(predictions: seq<StoredPrediction>): (m: map<string, StoredPrediction>)
    ensures forall u :: u in m <==> exists i | 0 <= i < |predictions| :: predictions[i].userId == u
    ensures forall u | u in m :: m[u].userId == u
    decreases |predictions|
  {
    if predictions == [] then map[]
    else
      var n := |predictions| - 1;
      var m := SavedMap(predictions[..n]);
      assert forall i | 0 <= i < n :: predictions[..n][i] == predictions[i];
      m[predictions[n].userId := predictions[n]]
  }

  /** One profile's defaults applied to the prediction map. */
  function ApplyDefault(sessionType: GameSessionType, m: map<string, StoredPrediction>, d: UserDefaults): map<string, StoredPrediction> {
    var fallback := Fallback(sessionType, d);
    if d.id !in m then
      if !AnyPick(fallback) then m else m[d.id := fallback]
    else m[d.id := FillFrom(m[d.id], fallback)]
  }

  /** All profiles' defaults applied in order. */
  function ApplyDefaults(sessionType: GameSessionType, m: map<string, StoredPrediction>, defaults: seq<UserDefaults>): map<string, StoredPrediction>
    decreases |defaults|
  {
    if defaults == [] then m
    else
      var n := |defaults| - 1;
      ApplyDefault(sessionType, ApplyDefaults(sessionType, m, defaults[..n]), defaults[n])
  }

  /** The two loops that build `predictionMap`. */
  method EffectivePredictions(sessionType: GameSessionType, predictions: seq<StoredPrediction>, defaults: seq<UserDefaults>)
    returns (effective: map<string, StoredPrediction>)
    ensures effective == ApplyDefaults(sessionType, SavedMap(predictions), defaults)
  {
    effective := map[];
    var i := 0;
    while i < |predictions|
      invariant 0 <= i <= |predictions|
      invariant effective == SavedMap(predictions[..i])
    {
      effective := effective[predictions[i].userId := predictions[i]];
      assert predictions[..i + 1][..i] == predictions[..i];
      i := i + 1;
    }
    assert predictions[..i] == predictions;
    ghost var saved := effective;
    var j := 0;
    while j < |defaults|
      invariant 0 <= j <= |defaults|
      invariant effective == ApplyDefaults(sessionType, saved, defaults[..j])
    {
      var profile := defaults[j];
      var hasSaved := profile.id in effective;
      var fallback := Fallback(sessionType, profile);
      if !hasSaved {
        if AnyPick(fallback) {
          effective := effective[profile.id := fallback];
        }
      } else {
        var existing := effective[profile.id];
        effective := effective[profile.id := FillFrom(existing, fallback)];
      }
      assert defaults[..j + 1][..j] == defaults[..j];
      j := j + 1;
    }
    assert defaults[..j] == defaults;
  }

  function DefaultIds(defaults: seq<UserDefaults>): set<string> {
    set d | d in defaults :: d.id
  }

  /** Applying one profile's defaults touches no other user. */
  lemma ApplyDefaultOthers(sessionType: GameSessionType, m: map<string, StoredPrediction>, d: UserDefaults, u: string)
    requires u != d.id
    ensures u in ApplyDefault(sessionType, m, d) <==> u in m
    ensures u in m ==> ApplyDefault(sessionType, m, d)[u] == m[u]
  {
  }

  /** The last row of distinct defaults shares its id with no earlier row. */
  lemma {:induction false} LastDefaultIsNew(defaults: seq<UserDefaults>)
    requires defaults != [] && DistinctBy(defaults, UserDefaultsId)
    ensures DistinctBy(defaults[..|defaults| - 1], UserDefaultsId)
    ensures defaults[|defaults| - 1].id !in DefaultIds(defaults[..|defaults| - 1])
    ensures forall k | 0 <= k < |defaults| - 1 :: defaults[k].id != defaults[|defaults| - 1].id
  {
    var n := |defaults| - 1;
    var prefix := defaults[..n];
    assert forall i | 0 <= i < n :: prefix[i] == defaults[i];
    assert forall k | 0 <= k < n :: UserDefaultsId(defaults[k]) != UserDefaultsId(defaults[n]);
    forall e | e in prefix
      ensures e.id != defaults[n].id
    {
      var i :| 0 <= i < n && prefix[i] == e;
    }
  }

  /** A user without a defaults row keeps what was saved, if anything. */
  lemma {:induction false} ApplyDefaultsKeepsOthers(sessionType: GameSessionType, saved: map<string, StoredPrediction>, defaults: seq<UserDefaults>, u: string)
    requires u !in DefaultIds(defaults)
    ensures u in ApplyDefaults(sessionType, saved, defaults) <==> u in saved
    ensures u in saved ==> ApplyDefaults(sessionType, saved, defaults)[u] == saved[u]
    decreases |defaults|
  {
    if defaults != [] {
      var n := |defaults| - 1;
      assert defaults[n] in defaults;
      assert u !in DefaultIds(defaults[..n]) by {
        forall e | e in defaults[..n]
          ensures e.id != u
        {
          assert e in defaults;
        }
      }
      ApplyDefaultsKeepsOthers(sessionType, saved, defaults[..n], u);
      ApplyDefaultOthers(sessionType, ApplyDefaults(sessionType, saved, defaults[..n]), defaults[n], u);
    }
  }

  /** With one defaults row per profile, a saved prediction is filled from
      its profile's defaults. */
  lemma {:induction false} ApplyDefaultsFillsSaved(sessionType: GameSessionType, saved: map<string, StoredPrediction>, defaults: seq<UserDefaults>)
    requires DistinctBy(defaults, UserDefaultsId)
    ensures var r := ApplyDefaults(sessionType, saved, defaults);
      forall k | 0 <= k < |defaults| && defaults[k].id in saved ::
        defaults[k].id in r && r[defaults[k].id] == FillFrom(saved[defaults[k].id], Fallback(sessionType, defaults[k]))
    decreases |defaults|
  {
    if defaults != [] {
      var n := |defaults| - 1;
      var prefix := defaults[..n];
      LastDefaultIsNew(defaults);
      ApplyDefaultsFillsSaved(sessionType, saved, prefix);
      var previous := ApplyDefaults(sessionType, saved, prefix);
      var d := defaults[n];
      ApplyDefaultsKeepsOthers(sessionType, saved, prefix, d.id);
      forall k | 0 <= k < n
        ensures defaults[k] == prefix[k]
      {
      }
      forall k | 0 <= k < n && defaults[k].id in previous
        ensures ApplyDefault(sessionType, previous, d)[defaults[k].id] == previous[defaults[k].id]
      {
        ApplyDefaultOthers(sessionType, previous, d, defaults[k].id);
      }
    }
  }

  /** With one defaults row per profile, a profile without a saved
      prediction is scored from its defaults iff they hold a pick. */
  lemma {:induction false} ApplyDefaultsAddsFallbacks(sessionType: GameSessionType, saved: map<string, StoredPrediction>, defaults: seq<UserDefaults>)
    requires DistinctBy(defaults, UserDefaultsId)
    ensures var r := ApplyDefaults(sessionType, saved, defaults);
      forall k | 0 <= k < |defaults| && defaults[k].id !in saved ::
        (defaults[k].id in r <==> AnyPick(Fallback(sessionType, defaults[k])))
        && (defaults[k].id in r ==> r[defaults[k].id] == Fallback(sessionType, defaults[k]))
    decreases |defaults|
  {
    if defaults != [] {
      var n := |defaults| - 1;
      var prefix := defaults[..n];
      LastDefaultIsNew(defaults);
      ApplyDefaultsAddsFallbacks(sessionType, saved, prefix);
      var previous := ApplyDefaults(sessionType, saved, prefix);
      var d := defaults[n];
      ApplyDefaultsKeepsOthers(sessionType, saved, prefix, d.id);
      forall k | 0 <= k < n
        ensures defaults[k] == prefix[k]
      {
      }
      forall k | 0 <= k < n
        ensures defaults[k].id in ApplyDefault(sessionType, previous, d) <==> defaults[k].id in previous
        ensures defaults[k].id in previous ==> ApplyDefault(sessionType, previous, d)[defaults[k].id] == previous[defaults[k].id]
      {
        ApplyDefaultOthers(sessionType, previous, d, defaults[k].id);
      }
    }
  }

  // ---------------------------------------------------------------------------
  // The route

  datatype Outcome =
    | Failed(status: int)
    | NothingToScore
    | Scored(scores: map<string, Score>)

  /** The request passes the user, role and session-type checks. */
  predicate Admitted(authenticated: bool, role: Option<string>, sessionType: GameSessionType) {
    authenticated && role == Some("admin") && (sessionType == Race || sessionType == Sprint)
  }

  /** `POST`: 401 without a user, 403 for a non-admin, 400 for a session
      type other than race and sprint, 500 when the results cannot be
      fetched or the upsert fails; otherwise every effective prediction is
      scored, or nothing when there is none. */
  function Calculate(
    authenticated: bool, role: Option<string>, sessionType: GameSessionType,
    results: Option<seq<string>>, qualifying: seq<string>,
    predictions: seq<StoredPrediction>, defaults: seq<UserDefaults>, upsertOk: bool): (out: Outcome)
    ensures !authenticated ==> out == Failed(401)
    ensures authenticated && role != Some("admin") ==> out == Failed(403)
    ensures authenticated && role == Some("admin") && sessionType != Race && sessionType != Sprint ==> out == Failed(400)
    ensures Admitted(authenticated, role, sessionType) && results.None? ==> out == Failed(500)
    ensures Admitted(authenticated, role, sessionType) && results.Some? ==>
      (out.NothingToScore? <==> ApplyDefaults(sessionType, SavedMap(predictions), defaults) == map[])
    ensures (Admitted(authenticated, role, sessionType) && results.Some?
      && ApplyDefaults(sessionType, SavedMap(predictions), defaults) != map[]) ==>
      (upsertOk ==> out.Scored?) && (!upsertOk ==> out == Failed(500))
    ensures out.NothingToScore? ==> ApplyDefaults(sessionType, SavedMap(predictions), defaults) == map[]
    ensures out.Scored? ==> results.Some? && upsertOk
    ensures out.Scored? ==> out.scores.Keys == ApplyDefaults(sessionType, SavedMap(predictions), defaults).Keys != {}
    ensures out.Scored? ==> forall u | u in out.scores ::
      out.scores[u] == PredictionScore(sessionType, ApplyDefaults(sessionType, SavedMap(predictions), defaults)[u],
        ActualPodium(sessionType, results.value, qualifying))
  {
    if !authenticated then Failed(401)
    else if role != Some("admin") then Failed(403)
    else if sessionType != Race && sessionType != Sprint then Failed(400)
    else if results.None? then Failed(500)
    else
      var actual := ActualPodium(sessionType, results.value, qualifying);
      var effective := ApplyDefaults(sessionType, SavedMap(predictions), defaults);
      if effective == map[] then NothingToScore
      else if !upsertOk then Failed(500)
      else Scored(map u | u in effective :: PredictionScore(sessionType, effective[u], actual))
  }
}
