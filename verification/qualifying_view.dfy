/** The qualifying view: the same leaderboard cut to the cars still running
    in each phase (everyone in Q1, the top fifteen in Q2, the top ten in Q3). */
module QualifyingView {
  import opened Common
  import opened Timing

  datatype Phase = Q1 | Q2 | Q3

  function InTopFifteen(row: TimingRow): bool { row.position <= 15 }
  function InTopTen(row: TimingRow): bool { row.position <= 10 }

  /** `phaseRows`: every row in Q1, the rows placed 15th or better in Q2,
      the rows placed 10th or better in Q3. */
  function PhaseRows(phase: Phase, rows: seq<TimingRow>): (shown: seq<TimingRow>)
    ensures phase == Q1 ==> shown == rows
    ensures phase == Q2 ==> forall row :: row in shown <==> row in rows && row.position <= 15
    ensures phase == Q3 ==> forall row :: row in shown <==> row in rows && row.position <= 10
    ensures |shown| <= |rows|
  {
    match phase
    case Q1 => rows
    case Q2 => Filter(rows, InTopFifteen)
    case Q3 => Filter(rows, InTopTen)
  }

  /** Every phase keeps its rows in leaderboard order and adds none. */
  lemma PhaseRowsKeepOrder(phase: Phase, rows: seq<TimingRow>)
    ensures IsSubsequence(PhaseRows(phase, rows), rows)
  {
    match phase
    case Q1 => SubsequenceOfSelf(rows);
    case Q2 => FilterIsSubsequence(rows, InTopFifteen);
    case Q3 => FilterIsSubsequence(rows, InTopTen);
  }

  /** A sequence is a subsequence of itself. */
  lemma {:induction false} SubsequenceOfSelf<T>(s: seq<T>)
    ensures IsSubsequence(s, s)
    decreases |s|
  {
    if s != [] {
      SubsequenceOfSelf(s[..|s| - 1]);
    }
  }

  /** The phases are nested: the Q3 rows are the Q2 rows cut to the top
      ten, and every Q3 row is a Q2 row and every Q2 row a Q1 row. */
  lemma PhasesNested(rows: seq<TimingRow>)
    ensures PhaseRows(Q3, rows) == Filter(PhaseRows(Q2, rows), InTopTen)
    ensures forall row | row in PhaseRows(Q3, rows) :: row in PhaseRows(Q2, rows)
    ensures forall row | row in PhaseRows(Q2, rows) :: row in PhaseRows(Q1, rows)
  {
    FilterNested(rows, InTopFifteen, InTopTen);
  }
}
