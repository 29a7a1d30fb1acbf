/** The qualifying table of a race: one row per driver with the three
    session times (a dash where there is none) and a status that says in
    which session the driver was knocked out, or that the driver reached
    Q3. */
module QualifyingTable {
  import opened Common
  import opened TimingFormat

  /** A driver's qualifying times as the feed sends them; a session the
      driver did not run is missing or empty. */
  datatype QualifyingRow = QualifyingRow(position: string, q1: Option<string>, q2: Option<string>, q3: Option<string>)

  datatype Tag = Tag(caption: string, className: string)

  const OutInQ1 := Tag("Out in Q1", "text-red-300 bg-red-500/10 border-red-400/20")
  const OutInQ2 := Tag("Out in Q2", "text-amber-300 bg-amber-500/10 border-amber-400/20")

  /** `getEliminationTag`: knocked out in Q1 without a Q2 time, in Q2 with
      one but without a Q3 time, no tag with both. */
  function EliminationTag(row: QualifyingRow): (tag: Option<Tag>)
    ensures tag == Some(OutInQ1) <==> !Truthy(row.q2)
    ensures tag == Some(OutInQ2) <==> Truthy(row.q2) && !Truthy(row.q3)
    ensures tag.None? <==> Truthy(row.q2) && Truthy(row.q3)
  {
    if !Truthy(row.q2) then Some(OutInQ1)
    else if !Truthy(row.q3) then Some(OutInQ2)
    else None
  }

  /** A time cell: the time, or a dash. */
  function TimeCell(q: Option<string>): (cell: string)
    ensures Truthy(q) ==> cell == q.value
    ensures !Truthy(q) ==> cell == Dash
  {
    if Truthy(q) then q.value else Dash
  }

  /** The status cell: the tag's label, or "Q3". */
  function StatusText(row: QualifyingRow): (text: string)
    ensures EliminationTag(row).Some? ==> text == EliminationTag(row).value.caption
    ensures EliminationTag(row).None? ==> text == "Q3"
  {
    var tag := EliminationTag(row);
    if tag.Some? then tag.value.caption else "Q3"
  }

  /** A rendered row: the three time cells, the status, and whether it
      has the lighter background of the even rows. */
  datatype RowView = RowView(q1: string, q2: string, q3: string, status: string, shaded: bool)

  datatype TableView = NoData | Rows(rows: seq<RowView>)

  /** The table: the empty notice without results, else one row per
      result in the feed's order. */
  function Render(qualifying: seq<QualifyingRow>): (view: TableView)
    ensures view == NoData <==> qualifying == []
    ensures view.Rows? ==> (
      |view.rows| == |qualifying|
      && forall i | 0 <= i < |qualifying| ::
        view.rows[i] == RowView(TimeCell(qualifying[i].q1), TimeCell(qualifying[i].q2),
                                TimeCell(qualifying[i].q3), StatusText(qualifying[i]), i % 2 == 0))
  {
    if |qualifying| == 0 then NoData
    else Rows(seq(|qualifying|, i requires 0 <= i < |qualifying| =>
      var row := qualifying[i];
      RowView(TimeCell(row.q1), TimeCell(row.q2), TimeCell(row.q3), StatusText(row), i % 2 == 0)))
  }

  /** The status agrees with the time cells for times that are not a
      dash themselves: "Q3" exactly when the Q2 and Q3 cells both show a
      time, "Out in Q1" exactly when the Q2 cell shows a dash. */
  lemma StatusMatchesCells(row: QualifyingRow)
    requires row.q2 != Some(Dash) && row.q3 != Some(Dash)
    ensures StatusText(row) == "Q3" <==> TimeCell(row.q2) != Dash && TimeCell(row.q3) != Dash
    ensures StatusText(row) == "Out in Q1" <==> TimeCell(row.q2) == Dash
  {
    assert |"Out in Q1"| != |"Q3"| && |"Out in Q2"| != |"Q3"|;
    assert OutInQ1.caption != OutInQ2.caption by {
      assert OutInQ1.caption[8] != OutInQ2.caption[8];
    }
  }

  /** The Q1 time never decides the status, and the Q2 column is read
      first: a row with a Q3 time but no Q2 time shows "Out in Q1". */
  lemma StatusIgnoresQ1(row: QualifyingRow, q1: Option<string>)
    ensures StatusText(row.(q1 := q1)) == StatusText(row)
    ensures !Truthy(row.q2) ==> StatusText(row) == "Out in Q1"
  {
  }
}
