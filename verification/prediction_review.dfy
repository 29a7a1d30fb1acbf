/** The review of a scored prediction: one line per predicted place (pole
    first, only for a qualifying session), each with the pick, the actual
    driver, the points earned and the most it could earn, marked correct
    when the pick is the actual driver; a bonus line when bonus points were
    earned. */
module PredictionReview {
  import opened Common
  import opened F1Types
  import opened GamePredictions
  import opened PredictionBoards
  import GameScoring

  /** One line of the review. */
  datatype ReviewSlot = ReviewSlot(
    key: SlotKey,
    predicted: Option<string>,
    actual: Option<string>,
    points: Option<nat>,
    maxPoints: nat)

  function PickOf(p: Prediction, key: SlotKey): Option<string> {
    match key
    case Pole => p.pole
    case P1 => p.p1
    case P2 => p.p2
    case P3 => p.p3
  }

  function ActualOf(actual: Option<GameScoring.Podium>, key: SlotKey): Option<string> {
    if actual.None? then None
    else match key
      case Pole => actual.value.pole
      case P1 => actual.value.p1
      case P2 => actual.value.p2
      case P3 => actual.value.p3
  }

  function PointsOf(score: Option<GameScoring.Score>, key: SlotKey): Option<nat> {
    if score.None? then None
    else match key
      case Pole => Some(score.value.pole)
      case P1 => Some(score.value.p1)
      case P2 => Some(score.value.p2)
      case P3 => Some(score.value.p3)
  }

  function MaxOf(scoring: Scoring, key: SlotKey): nat {
    match key
    case Pole => scoring.pole
    case P1 => scoring.p1
    case P2 => scoring.p2
    case P3 => scoring.p3
  }

  function SlotFor(p: Prediction, score: Option<GameScoring.Score>, actual: Option<GameScoring.Podium>, key: SlotKey): ReviewSlot {
    ReviewSlot(key, PickOf(p, key), ActualOf(actual, key), PointsOf(score, key), MaxOf(BoardScoring(p.sessionType), key))
  }

  /** The review lines: pole, P1, P2, P3 for a qualifying session, P1, P2, P3
      otherwise; maxima from the sprint table for the sprint sessions. */
  function ReviewSlots(p: Prediction, score: Option<GameScoring.Score>, actual: Option<GameScoring.Podium>): (slots: seq<ReviewSlot>)
    ensures |slots| == (if HasPole(p.sessionType) then 4 else 3)
    ensures slots[0].key == Pole <==> HasPole(p.sessionType)
    ensures forall i, j | 0 <= i < j < |slots| :: slots[i].key != slots[j].key
    ensures forall i | 0 <= i < |slots| ::
      slots[i].predicted == PickOf(p, slots[i].key)
      && slots[i].maxPoints == MaxOf(BoardScoring(p.sessionType), slots[i].key)
    ensures forall i | 0 <= i < |slots| :: slots[i].maxPoints > 0
  {
    var places := [SlotFor(p, score, actual, P1), SlotFor(p, score, actual, P2), SlotFor(p, score, actual, P3)];
    if HasPole(p.sessionType) then [SlotFor(p, score, actual, Pole)] + places else places
  }

  /** `slot.predicted && slot.predicted === slot.actual`. */
  predicate IsCorrect(slot: ReviewSlot) {
    Truthy(slot.predicted) && slot.predicted == slot.actual
  }

  /** `slot.points || 0`. */
  function EarnedPoints(slot: ReviewSlot): nat {
    slot.points.GetOr(0)
  }

  /** The bonus line is shown iff a score with bonus points exists. */
  predicate ShowsBonus(score: Option<GameScoring.Score>) {
    score.Some? && score.value.bonus > 0
  }

  /** How a line is drawn: correct, points for another place, or nothing. */
  datatype SlotMark = Correct | Partial | Miss

  function MarkOf(slot: ReviewSlot): (m: SlotMark)
    ensures m == Correct <==> IsCorrect(slot)
    ensures m == Partial <==> !IsCorrect(slot) && EarnedPoints(slot) > 0
  {
    if IsCorrect(slot) then Correct else if EarnedPoints(slot) > 0 then Partial else Miss
  }

  /** The stored prediction the scoring route reads. */
  function Stored(p: Prediction): GameScoring.StoredPrediction {
    GameScoring.StoredPrediction(p.userId, p.pole, p.p1, p.p2, p.p3)
  }

  /** For the two scored session types, reviewing the route's own score
      against the podium it used marks a line correct exactly when that
      line earned its full points, and shows the bonus line exactly when
      bonus points were earned. */
  lemma ReviewAgreesWithScoring(p: Prediction, actual: GameScoring.Podium)
    requires p.sessionType == Race || p.sessionType == Sprint
    ensures var score := GameScoring.PredictionScore(p.sessionType, Stored(p), actual);
      var slots := ReviewSlots(p, Some(score), Some(actual));
      |slots| == 3
      && (forall i | 0 <= i < 3 :: IsCorrect(slots[i]) <==> EarnedPoints(slots[i]) == slots[i].maxPoints)
      && (ShowsBonus(Some(score)) <==> score.bonus > 0)
  {
    var scoring := GameScoring.ScoringFor(p.sessionType);
    assert BoardScoring(p.sessionType) == scoring;
  }
}
