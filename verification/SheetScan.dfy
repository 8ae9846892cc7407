/**
 The scan of a spreadsheet table: about a billion cells of which a screenful is showing. The scan
 learns the first column from the first showing cell and leaves each row, and the sheet, as soon as
 it meets a hidden cell.
 */
module SheetScan {
  import opened Prelude

  const LOOKAHEAD := 500
  const MAX_ROW := 1048576

  /** What asking a cell for its state gives; a cell that does not exist raises as well. */
  datatype Cell = Fails | Hidden | Showing

  type Sheet = (int, int) -> Cell

  /** `base` is the learned column, `clm` the column the last row ended on. */
  datatype Scan = Scan(base: Option<int>, emitted: seq<(int, int)>, visits: nat, clm: int)

  const NOTHING := Scan(None, [], 0, 0)

  predicate BaseIn(s: Scan, columns: int) {
    s.base.Some? ==> 0 <= s.base.value < columns
  }

  function FirstColumn(s: Scan): int {
    if s.base.Some? then s.base.value else 0
  }

  function Visit(s: Scan, r: int, clm: int, showing: bool): Scan {
    if showing
    then Scan(if s.base.Some? then s.base else Some(clm), s.emitted + [(r, clm)], s.visits + 1, clm)
    else s.(visits := s.visits + 1, clm := clm)
  }

  /** The rest of row `r` from column `clm`; None when a cell raised. */
  function ScanRow(sheet: Sheet, r: int, clm: int, columns: int, s: Scan): (end: Option<Scan>)
    requires 0 <= clm < columns && BaseIn(s, columns)
    ensures end.Some? ==> BaseIn(end.value, columns) && s.emitted <= end.value.emitted
    decreases columns - clm, s.visits
  {
    var cell := sheet(r, clm);
    var s' := Visit(s, r, clm, cell == Showing);
    if cell == Fails then None
    else if clm + 1 == columns || (cell == Hidden && (s.base.Some? || clm >= LOOKAHEAD)) then Some(s')
    else ScanRow(sheet, r, clm + 1, columns, s')
  }

  predicate LeavesSheet(s: Scan, r: int) {
    s.base == Some(s.clm) || (s.base == None && r >= LOOKAHEAD)
  }

  /** The rest of the sheet from row `r`. */
  function ScanRows(sheet: Sheet, r: int, columns: int, rows: int, s: Scan): (end: Option<Scan>)
    requires r <= rows && columns > 0 && BaseIn(s, columns)
    ensures end.Some? ==> s.emitted <= end.value.emitted
    decreases rows - r, s.visits
  {
    if r == rows then Some(s)
    else
      var row := ScanRow(sheet, r, FirstColumn(s), columns, s);
      if row == None then None
      else if LeavesSheet(row.value, r) then row
      else ScanRows(sheet, r + 1, columns, rows, row.value)
  }

  function ScanSheet(sheet: Sheet, columns: int): Option<Scan>
    requires columns > 0
  {
    ScanRows(sheet, 0, columns, MAX_ROW, NOTHING)
  }

  // ----- one row -----

  /** The first column from `clm` on that is not showing, or `columns`. */
  function RunEnd(sheet: Sheet, r: int, clm: int, columns: int): (end: int)
    requires clm <= columns
    ensures clm <= end <= columns
    ensures forall c :: clm <= c < end ==> sheet(r, c) == Showing
    ensures end < columns ==> sheet(r, end) != Showing
    decreases columns - clm
  {
    if clm == columns || sheet(r, clm) != Showing then clm else RunEnd(sheet, r, clm + 1, columns)
  }

  function Cells(r: int, from: int, upTo: int): seq<(int, int)>
    decreases upTo - from
  {
    if upTo <= from then [] else Cells(r, from, upTo - 1) + [(r, upTo - 1)]
  }

  lemma {:induction false} CellsFromFront(r: int, from: int, upTo: int)
    requires from < upTo
    ensures Cells(r, from, upTo) == [(r, from)] + Cells(r, from + 1, upTo)
    decreases upTo - from
  {
    if from + 1 < upTo {
      CellsFromFront(r, from, upTo - 1);
    }
  }

  function One(b: bool): nat {
    if b then 1 else 0
  }

  /** The scan after the run of showing cells that starts at `clm` and the hidden cell that ends it. */
  function AfterRun(r: int, clm: int, end: int, columns: int, s: Scan): Scan
    requires clm < end || s.base.Some?
    requires clm <= end
  {
    Scan(if s.base.Some? then s.base else Some(clm), s.emitted + Cells(r, clm, end),
         s.visits + (end - clm) + One(end < columns), if end < columns then end else columns - 1)
  }

  /** The cell that ends a run of showing cells does not raise. */
  predicate EndIsCalm(sheet: Sheet, r: int, clm: int, columns: int)
    requires clm <= columns
  {
    var end := RunEnd(sheet, r, clm, columns);
    end == columns || sheet(r, end) != Fails
  }

  /** From a learned column or a showing cell on, the scan goes to the end of the run. */
  lemma {:induction false} RowRun(sheet: Sheet, r: int, clm: int, columns: int, s: Scan)
    requires 0 <= clm < columns && BaseIn(s, columns) && (s.base.Some? || sheet(r, clm) == Showing)
    ensures ScanRow(sheet, r, clm, columns, s)
            == if EndIsCalm(sheet, r, clm, columns)
               then Some(AfterRun(r, clm, RunEnd(sheet, r, clm, columns), columns, s)) else None
    decreases columns - clm
  {
    var end := RunEnd(sheet, r, clm, columns);
    if clm < end {
      CellsFromFront(r, clm, end);
      var s' := Visit(s, r, clm, true);
      if clm + 1 < columns {
        RowRun(sheet, r, clm + 1, columns, s');
        assert s.emitted + Cells(r, clm, end) == s'.emitted + Cells(r, clm + 1, end);
      } else {
        assert Cells(r, clm + 1, end) == [];
        assert s.emitted + Cells(r, clm, end) == s'.emitted;
      }
    } else {
      assert s.emitted + Cells(r, clm, end) == s.emitted;
    }
  }

  predicate NoneShows(sheet: Sheet, r: int, from: int, upTo: int) {
    forall c :: from <= c < upTo ==> sheet(r, c) != Showing
  }

  /** Nothing shows in the row, as far as the lookahead goes. */
  predicate NoneShowsNear(sheet: Sheet, r: int) {
    NoneShows(sheet, r, 0, LOOKAHEAD + 1)
  }

  predicate NoneFailsNear(sheet: Sheet, r: int) {
    NoneFails(sheet, r, 0, LOOKAHEAD + 1)
  }

  predicate NoneFails(sheet: Sheet, r: int, from: int, upTo: int) {
    forall c :: from <= c < upTo ==> sheet(r, c) != Fails
  }

  function Skipped(s: Scan, clm: int, upTo: int): Scan
    requires clm <= upTo
  {
    s.(visits := s.visits + (upTo - clm), clm := if clm < upTo then upTo - 1 else s.clm)
  }

  /** Without a learned column, hidden cells are stepped over up to the lookahead, unless one raises. */
  lemma {:induction false} RowSkips(sheet: Sheet, r: int, clm: int, upTo: int, columns: int, s: Scan)
    requires 0 <= clm <= upTo <= LOOKAHEAD < columns && s.base == None && NoneShows(sheet, r, clm, upTo)
    ensures ScanRow(sheet, r, clm, columns, s)
            == if !NoneFails(sheet, r, clm, upTo) then None
               else ScanRow(sheet, r, upTo, columns, Skipped(s, clm, upTo))
    decreases upTo - clm
  {
    if clm < upTo {
      var cell := sheet(r, clm);
      RowSkips(sheet, r, clm + 1, upTo, columns, Visit(s, r, clm, false));
      assert NoneFails(sheet, r, clm, upTo) <==> cell != Fails && NoneFails(sheet, r, clm + 1, upTo);
    }
  }

  /** A row with nothing showing within the lookahead is left there. */
  lemma BlankRow(sheet: Sheet, r: int, columns: int, s: Scan)
    requires LOOKAHEAD < columns && s.base == None && NoneShowsNear(sheet, r)
    ensures ScanRow(sheet, r, 0, columns, s)
            == if NoneFailsNear(sheet, r)
               then Some(s.(visits := s.visits + (LOOKAHEAD + 1), clm := LOOKAHEAD)) else None
  {
    var last := sheet(r, LOOKAHEAD);
    RowSkips(sheet, r, 0, LOOKAHEAD, columns, s);
    assert NoneFailsNear(sheet, r) <==> NoneFails(sheet, r, 0, LOOKAHEAD) && last != Fails;
  }

  /** The row in which the first showing cell is found. */
  lemma FindingRow(sheet: Sheet, r: int, c0: int, columns: int, s: Scan)
    requires 0 <= c0 <= LOOKAHEAD < columns && s.base == None
    requires sheet(r, c0) == Showing && NoneShows(sheet, r, 0, c0)
    ensures RunEnd(sheet, r, c0, columns) > c0
    ensures ScanRow(sheet, r, 0, columns, s)
            == if NoneFails(sheet, r, 0, c0) && EndIsCalm(sheet, r, c0, columns)
               then Some(AfterRun(r, c0, RunEnd(sheet, r, c0, columns), columns, Skipped(s, 0, c0)))
               else None
  {
    RowSkips(sheet, r, 0, c0, columns, s);
    RowRun(sheet, r, c0, columns, Skipped(s, 0, c0));
  }

  // ----- all rows -----

  /** Nothing shows in rows `r` to `upTo`, as far as the lookahead goes. */
  ghost predicate BlankTo(sheet: Sheet, r: int, upTo: int) {
    forall i :: r <= i < upTo ==> NoneShowsNear(sheet, i)
  }

  ghost predicate CalmTo(sheet: Sheet, r: int, upTo: int) {
    forall i :: r <= i < upTo ==> NoneFailsNear(sheet, i)
  }

  /** The first showing cell in reading order is `(r0, c0)`, as far as the lookahead goes. */
  ghost predicate Found(sheet: Sheet, r0: int, c0: int) {
    && 0 <= r0 <= LOOKAHEAD && 0 <= c0 <= LOOKAHEAD && sheet(r0, c0) == Showing
    && BlankTo(sheet, 0, r0) && NoneShows(sheet, r0, 0, c0)
  }

  ghost predicate NothingFound(sheet: Sheet) {
    BlankTo(sheet, 0, LOOKAHEAD + 1)
  }

  lemma {:induction false} FirstShowing(sheet: Sheet, r: int, clm: int) returns (c0: int)
    requires clm <= LOOKAHEAD + 1
    ensures clm <= c0 <= LOOKAHEAD + 1 && NoneShows(sheet, r, clm, c0)
    ensures c0 <= LOOKAHEAD ==> sheet(r, c0) == Showing
    decreases LOOKAHEAD + 1 - clm, r
  {
    if clm <= LOOKAHEAD && sheet(r, clm) != Showing {
      c0 := FirstShowing(sheet, r, clm + 1);
    } else {
      c0 := clm;
    }
  }

  /** Every sheet has one or the other. */
  lemma {:induction false} FoundOrNot(sheet: Sheet, r: int)
    requires 0 <= r <= LOOKAHEAD + 1 && BlankTo(sheet, 0, r)
    ensures NothingFound(sheet) || exists r0, c0 :: Found(sheet, r0, c0)
    decreases LOOKAHEAD + 1 - r
  {
    if r <= LOOKAHEAD {
      var c0 := FirstShowing(sheet, r, 0);
      if c0 <= LOOKAHEAD {
        assert Found(sheet, r, c0);
      } else {
        FoundOrNot(sheet, r + 1);
      }
    }
  }

  lemma {:induction false} BlankRows(sheet: Sheet, r: int, upTo: int, columns: int, rows: int, s: Scan)
    requires 0 <= r <= upTo <= LOOKAHEAD && upTo <= rows && LOOKAHEAD < columns
    requires s.base == None && BlankTo(sheet, r, upTo)
    ensures ScanRows(sheet, r, columns, rows, s)
            == if !CalmTo(sheet, r, upTo) then None
               else ScanRows(sheet, upTo, columns, rows,
                             s.(visits := s.visits + (LOOKAHEAD + 1) * (upTo - r),
                                clm := if r < upTo then LOOKAHEAD else s.clm))
    decreases upTo - r
  {
    if r < upTo {
      BlankRow(sheet, r, columns, s);
      BlankRows(sheet, r + 1, upTo, columns, rows, s.(visits := s.visits + (LOOKAHEAD + 1), clm := LOOKAHEAD));
      assert CalmTo(sheet, r, upTo) <==> NoneFailsNear(sheet, r) && CalmTo(sheet, r + 1, upTo);
    }
  }

  /** The cells that hang from column `c0`: row after row, the run that starts there, until a row has none. */
  function Hanging(sheet: Sheet, r: int, c0: int, columns: int, rows: int): seq<(int, int)>
    requires c0 <= columns && r <= rows
    decreases rows - r, columns
  {
    if r == rows then []
    else
      var end := RunEnd(sheet, r, c0, columns);
      if end == c0 then [] else Cells(r, c0, end) + Hanging(sheet, r + 1, c0, columns, rows)
  }

  function HangingVisits(sheet: Sheet, r: int, c0: int, columns: int, rows: int): nat
    requires c0 <= columns && r <= rows
    decreases rows - r, columns
  {
    if r == rows then 0
    else
      var end := RunEnd(sheet, r, c0, columns);
      if end == c0 then One(c0 < columns)
      else (end - c0) + One(end < columns) + HangingVisits(sheet, r + 1, c0, columns, rows)
  }

  /** Everything is showing in column `c0` from row `r0` to above row `r`. */
  predicate Reached(sheet: Sheet, r0: int, c0: int, r: int) {
    forall j :: r0 <= j < r ==> sheet(j, c0) == Showing
  }

  /** No run that the scan follows ends in a cell that raises. */
  ghost predicate HangsCalmly(sheet: Sheet, r0: int, c0: int, columns: int, rows: int)
    requires c0 <= columns
  {
    forall r :: r0 <= r < rows && Reached(sheet, r0, c0, r) ==> EndIsCalm(sheet, r, c0, columns)
  }

  lemma HangsCalmlyStep(sheet: Sheet, r: int, c0: int, columns: int, rows: int)
    requires r < rows && c0 < columns
    ensures HangsCalmly(sheet, r, c0, columns, rows)
            <==> && EndIsCalm(sheet, r, c0, columns)
                 && (sheet(r, c0) == Showing ==> HangsCalmly(sheet, r + 1, c0, columns, rows))
  {
    assert Reached(sheet, r, c0, r);
    forall i | r < i < rows
      ensures Reached(sheet, r, c0, i) <==> sheet(r, c0) == Showing && Reached(sheet, r + 1, c0, i)
    {
    }
  }

  lemma {:induction false} ScanHangs(sheet: Sheet, r: int, c0: int, columns: int, rows: int, s: Scan)
    requires r <= rows && 0 <= c0 && c0 + 1 < columns && s.base == Some(c0)
    ensures ScanRows(sheet, r, columns, rows, s).Some? <==> HangsCalmly(sheet, r, c0, columns, rows)
    ensures ScanRows(sheet, r, columns, rows, s).Some? ==>
              var scan := ScanRows(sheet, r, columns, rows, s).value;
              && scan.emitted == s.emitted + Hanging(sheet, r, c0, columns, rows)
              && scan.visits == s.visits + HangingVisits(sheet, r, c0, columns, rows)
    decreases rows - r
  {
    if r < rows {
      var end := RunEnd(sheet, r, c0, columns);
      RowRun(sheet, r, c0, columns, s);
      HangsCalmlyStep(sheet, r, c0, columns, rows);
      if end > c0 {
        assert sheet(r, c0) == Showing;
        ScanHangs(sheet, r + 1, c0, columns, rows, AfterRun(r, c0, end, columns, s));
      }
    }
  }

  lemma ScanFrom(sheet: Sheet, columns: int, r0: int, c0: int, rows: int, s: Scan)
    requires columns > LOOKAHEAD + 1 && Found(sheet, r0, c0) && s.base == None && r0 < rows
    ensures var scan := ScanRows(sheet, r0, columns, rows, s);
            && (scan.Some? <==> NoneFails(sheet, r0, 0, c0) && HangsCalmly(sheet, r0, c0, columns, rows))
            && (scan.Some? ==>
                  && scan.value.emitted == s.emitted + Hanging(sheet, r0, c0, columns, rows)
                  && scan.value.visits == s.visits + c0 + HangingVisits(sheet, r0, c0, columns, rows))
  {
    FindingRow(sheet, r0, c0, columns, s);
    HangsCalmlyStep(sheet, r0, c0, columns, rows);
    if NoneFails(sheet, r0, 0, c0) && EndIsCalm(sheet, r0, c0, columns) {
      var row := ScanRow(sheet, r0, 0, columns, s).value;
      ScanHangs(sheet, r0 + 1, c0, columns, rows, row);
    }
  }

  /** On every sheet whose first showing cell lies within the lookahead, the scan raises exactly when a cell
      before that one or the end of a run hanging from it does; otherwise it emits exactly the cells that
      hang from it, in reading order, and this is what it costs. */
  lemma ScanIsHanging(sheet: Sheet, columns: int, r0: int, c0: int)
    requires columns > LOOKAHEAD + 1 && Found(sheet, r0, c0)
    ensures var scan := ScanSheet(sheet, columns);
            && (scan.Some? <==> CalmTo(sheet, 0, r0) && NoneFails(sheet, r0, 0, c0)
                                && HangsCalmly(sheet, r0, c0, columns, MAX_ROW))
            && (scan.Some? ==>
                  && scan.value.emitted == Hanging(sheet, r0, c0, columns, MAX_ROW)
                  && scan.value.visits == (LOOKAHEAD + 1) * r0 + c0 + HangingVisits(sheet, r0, c0, columns, MAX_ROW))
  {
    BlankRows(sheet, 0, r0, columns, MAX_ROW, NOTHING);
    var s := NOTHING.(visits := (LOOKAHEAD + 1) * r0, clm := if 0 < r0 then LOOKAHEAD else 0);
    ScanFrom(sheet, columns, r0, c0, MAX_ROW, s);
  }

  /** On every other sheet it raises exactly when a cell within the lookahead in both directions does, and
      otherwise emits nothing after asking all of these. */
  lemma ScanFindsNothing(sheet: Sheet, columns: int)
    requires columns > LOOKAHEAD + 1 && NothingFound(sheet)
    ensures var scan := ScanSheet(sheet, columns);
            && (scan.Some? <==> CalmTo(sheet, 0, 501))
            && (scan.Some? ==> scan.value.emitted == [] && scan.value.visits == 501 * 501)
  {
    BlankRows(sheet, 0, LOOKAHEAD, columns, MAX_ROW, NOTHING);
    BlankRow(sheet, LOOKAHEAD, columns, NOTHING.(visits := (LOOKAHEAD + 1) * LOOKAHEAD, clm := LOOKAHEAD));
    assert CalmTo(sheet, 0, LOOKAHEAD + 1)
           <==> CalmTo(sheet, 0, LOOKAHEAD) && NoneFailsNear(sheet, LOOKAHEAD);
  }

  // ----- which cells hang -----

  lemma {:induction false} CellsMembers(r: int, from: int, upTo: int, cell: (int, int))
    ensures cell in Cells(r, from, upTo) <==> cell.0 == r && from <= cell.1 < upTo
    decreases upTo - from
  {
    if from < upTo {
      CellsMembers(r, from, upTo - 1, cell);
    }
  }

  /** Everything is showing from the corner down to row `r`, and from there along the row to column `c`. */
  ghost predicate InStaircase(sheet: Sheet, r0: int, c0: int, columns: int, rows: int, cell: (int, int)) {
    && r0 <= cell.0 < rows && c0 <= cell.1 < columns
    && (forall r :: r0 <= r <= cell.0 ==> sheet(r, c0) == Showing)
    && (forall c :: c0 <= c <= cell.1 ==> sheet(cell.0, c) == Showing)
  }

  lemma {:induction false} HangingMembers(sheet: Sheet, r0: int, c0: int, columns: int, rows: int, cell: (int, int))
    requires c0 < columns && r0 <= rows
    ensures cell in Hanging(sheet, r0, c0, columns, rows) <==> InStaircase(sheet, r0, c0, columns, rows, cell)
    decreases rows - r0
  {
    if r0 < rows {
      var end := RunEnd(sheet, r0, c0, columns);
      CellsMembers(r0, c0, end, cell);
      HangingMembers(sheet, r0 + 1, c0, columns, rows, cell);
      RunMembers(sheet, r0, c0, columns, cell.1);
      if end > c0 {
        assert cell in Hanging(sheet, r0, c0, columns, rows)
               <==> cell in Cells(r0, c0, end) || cell in Hanging(sheet, r0 + 1, c0, columns, rows);
      }
    }
  }

  lemma RunMembers(sheet: Sheet, r: int, c0: int, columns: int, c: int)
    requires c0 < columns
    ensures c0 <= c < RunEnd(sheet, r, c0, columns)
            <==> c0 <= c < columns && forall j :: c0 <= j <= c ==> sheet(r, j) == Showing
  {
    var end := RunEnd(sheet, r, c0, columns);
    if end <= c && end < columns {
      assert sheet(r, end) != Showing;
    }
  }

  // ----- against the scan of every cell -----

  function ShowingRow(sheet: Sheet, r: int, columns: nat): seq<(int, int)> {
    if columns == 0 then []
    else ShowingRow(sheet, r, columns - 1) + (if sheet(r, columns - 1) == Showing then [(r, columns - 1)] else [])
  }

  /** Every showing cell, in reading order: what asking all cells would give. */
  function ShowingCells(sheet: Sheet, r: int, columns: nat, rows: int): seq<(int, int)>
    requires r <= rows
    decreases rows - r, columns
  {
    if r == rows then [] else ShowingRow(sheet, r, columns) + ShowingCells(sheet, r + 1, columns, rows)
  }

  lemma {:induction false} ShowingRowMembers(sheet: Sheet, r: int, columns: nat, cell: (int, int))
    ensures cell in ShowingRow(sheet, r, columns)
            <==> cell.0 == r && 0 <= cell.1 < columns && sheet(cell.0, cell.1) == Showing
  {
    if columns > 0 {
      ShowingRowMembers(sheet, r, columns - 1, cell);
    }
  }

  lemma {:induction false} ShowingMembers(sheet: Sheet, r: int, columns: nat, rows: int, cell: (int, int))
    requires r <= rows
    ensures cell in ShowingCells(sheet, r, columns, rows)
            <==> r <= cell.0 < rows && 0 <= cell.1 < columns && sheet(cell.0, cell.1) == Showing
    decreases rows - r
  {
    if r < rows {
      ShowingRowMembers(sheet, r, columns, cell);
      ShowingMembers(sheet, r + 1, columns, rows, cell);
    }
  }

  ghost predicate RowsAreBlank(sheet: Sheet, r: int, upTo: int, columns: int) {
    forall i :: r <= i < upTo ==> NoneShows(sheet, i, 0, columns)
  }

  lemma {:induction false} BlankShowingRow(sheet: Sheet, r: int, columns: nat)
    requires NoneShows(sheet, r, 0, columns)
    ensures ShowingRow(sheet, r, columns) == []
  {
    if columns > 0 {
      BlankShowingRow(sheet, r, columns - 1);
    }
  }

  lemma {:induction false} SkipBlank(sheet: Sheet, r: int, upTo: int, columns: nat, rows: int)
    requires r <= upTo <= rows && RowsAreBlank(sheet, r, upTo, columns)
    ensures ShowingCells(sheet, r, columns, rows) == ShowingCells(sheet, upTo, columns, rows)
    decreases upTo - r
  {
    if r < upTo {
      BlankShowingRow(sheet, r, columns);
      SkipBlank(sheet, r + 1, upTo, columns, rows);
    }
  }

  /** Every showing cell of the sheet hangs from the corner. */
  ghost predicate IsStaircase(sheet: Sheet, r0: int, c0: int, columns: int, rows: int) {
    forall r, c :: 0 <= r < rows && 0 <= c < columns && sheet(r, c) == Showing ==>
      InStaircase(sheet, r0, c0, columns, rows, (r, c))
  }

  lemma ShowingHangs(sheet: Sheet, r0: int, c0: int, columns: int, rows: int, r: int, c: int)
    requires IsStaircase(sheet, r0, c0, columns, rows) && 0 <= r < rows && 0 <= c < columns
    ensures sheet(r, c) == Showing ==> InStaircase(sheet, r0, c0, columns, rows, (r, c))
  {
  }

  lemma {:induction false} RowIsRun(sheet: Sheet, r: int, c0: int, columns: int, k: nat)
    requires 0 <= c0 < columns && k <= columns
    requires forall c :: 0 <= c < columns && sheet(r, c) == Showing ==> c0 <= c < RunEnd(sheet, r, c0, columns)
    ensures ShowingRow(sheet, r, k)
            == var end := RunEnd(sheet, r, c0, columns); Cells(r, c0, if k < end then k else end)
  {
    if k > 0 {
      RowIsRun(sheet, r, c0, columns, k - 1);
    }
  }

  lemma StaircaseRow(sheet: Sheet, r0: int, c0: int, columns: int, rows: int, r: int)
    requires IsStaircase(sheet, r0, c0, columns, rows) && 0 <= c0 < columns && 0 <= r < rows
    ensures ShowingRow(sheet, r, columns) == Cells(r, c0, RunEnd(sheet, r, c0, columns))
  {
    forall c | 0 <= c < columns && sheet(r, c) == Showing ensures c0 <= c < RunEnd(sheet, r, c0, columns) {
      assert InStaircase(sheet, r0, c0, columns, rows, (r, c));
      RunMembers(sheet, r, c0, columns, c);
    }
    RowIsRun(sheet, r, c0, columns, columns);
  }

  lemma StaircaseEnds(sheet: Sheet, r0: int, c0: int, columns: int, rows: int, r: int)
    requires IsStaircase(sheet, r0, c0, columns, rows) && 0 <= c0 < columns && 0 <= r0 <= r < rows
    requires sheet(r, c0) != Showing
    ensures RowsAreBlank(sheet, r, rows, columns)
  {
    forall i, c | r <= i < rows && 0 <= c < columns ensures sheet(i, c) != Showing {
      ShowingHangs(sheet, r0, c0, columns, rows, i, c);
    }
  }

  lemma {:induction false} StaircaseHangs(sheet: Sheet, r0: int, c0: int, columns: int, rows: int, r: int)
    requires IsStaircase(sheet, r0, c0, columns, rows) && 0 <= c0 < columns && 0 <= r0 <= r <= rows
    ensures ShowingCells(sheet, r, columns, rows) == Hanging(sheet, r, c0, columns, rows)
    decreases rows - r
  {
    if r < rows {
      if sheet(r, c0) == Showing {
        StaircaseRow(sheet, r0, c0, columns, rows, r);
        StaircaseHangs(sheet, r0, c0, columns, rows, r + 1);
      } else {
        StaircaseEnds(sheet, r0, c0, columns, rows, r);
        SkipBlank(sheet, r, rows, columns, rows);
      }
    }
  }

  lemma StaircaseIsAll(sheet: Sheet, r0: int, c0: int, columns: int, rows: int)
    requires IsStaircase(sheet, r0, c0, columns, rows) && 0 <= c0 < columns && 0 <= r0 <= rows
    ensures ShowingCells(sheet, 0, columns, rows) == Hanging(sheet, r0, c0, columns, rows)
  {
    forall i, c | 0 <= i < r0 && 0 <= c < columns ensures sheet(i, c) != Showing {
      ShowingHangs(sheet, r0, c0, columns, rows, i, c);
    }
    SkipBlank(sheet, 0, r0, columns, rows);
    StaircaseHangs(sheet, r0, c0, columns, rows, r0);
  }

  /** With a first showing cell within the lookahead, nothing is missed exactly when all hang from it. */
  lemma HangingIsAllIff(sheet: Sheet, r0: int, c0: int, columns: int, rows: int)
    requires 0 <= c0 < columns && 0 <= r0 <= rows
    ensures Hanging(sheet, r0, c0, columns, rows) == ShowingCells(sheet, 0, columns, rows)
            <==> IsStaircase(sheet, r0, c0, columns, rows)
  {
    if IsStaircase(sheet, r0, c0, columns, rows) {
      StaircaseIsAll(sheet, r0, c0, columns, rows);
    }
    if Hanging(sheet, r0, c0, columns, rows) == ShowingCells(sheet, 0, columns, rows) {
      forall r, c | 0 <= r < rows && 0 <= c < columns && sheet(r, c) == Showing
        ensures InStaircase(sheet, r0, c0, columns, rows, (r, c))
      {
        ShowingMembers(sheet, 0, columns, rows, (r, c));
        HangingMembers(sheet, r0, c0, columns, rows, (r, c));
      }
    }
  }

  lemma NothingIsAllIff(sheet: Sheet, columns: nat, rows: nat)
    ensures ShowingCells(sheet, 0, columns, rows) == [] <==> RowsAreBlank(sheet, 0, rows, columns)
  {
    if RowsAreBlank(sheet, 0, rows, columns) {
      SkipBlank(sheet, 0, rows, columns, rows);
    }
    if ShowingCells(sheet, 0, columns, rows) == [] {
      forall r, c | 0 <= r < rows && 0 <= c < columns ensures sheet(r, c) != Showing {
        ShowingMembers(sheet, 0, columns, rows, (r, c));
      }
    }
  }

  lemma NothingHangs(sheet: Sheet, r0: int, c0: int, columns: int, rows: int)
    requires Found(sheet, r0, c0) && LOOKAHEAD < columns && LOOKAHEAD < rows
    ensures !RowsAreBlank(sheet, 0, rows, columns)
  {
    assert !NoneShows(sheet, r0, 0, columns) by {
      assert sheet(r0, c0) == Showing;
    }
  }

  /** For every sheet: unless a cell raises, the sparse scan finds the same cells as asking every one of them
      if and only if nothing shows at all, or something shows within the lookahead and every showing cell
      hangs from the first one. */
  lemma ScanIsCompleteIff(sheet: Sheet, columns: int)
    requires columns > LOOKAHEAD + 1 && ScanSheet(sheet, columns).Some?
    ensures ScanSheet(sheet, columns).value.emitted == ShowingCells(sheet, 0, columns, 1048576)
            <==> RowsAreBlank(sheet, 0, 1048576, columns)
                 || exists r0, c0 :: Found(sheet, r0, c0) && IsStaircase(sheet, r0, c0, columns, 1048576)
  {
    NothingIsAllIff(sheet, columns, MAX_ROW);
    forall r0, c0 | Found(sheet, r0, c0)
      ensures ScanSheet(sheet, columns).value.emitted == ShowingCells(sheet, 0, columns, MAX_ROW)
              <==> IsStaircase(sheet, r0, c0, columns, MAX_ROW)
      ensures !RowsAreBlank(sheet, 0, MAX_ROW, columns)
    {
      ScanIsHanging(sheet, columns, r0, c0);
      HangingIsAllIff(sheet, r0, c0, columns, MAX_ROW);
      NothingHangs(sheet, r0, c0, columns, MAX_ROW);
    }
    FoundOrNot(sheet, 0);
    if NothingFound(sheet) {
      ScanFindsNothing(sheet, columns);
      forall r0, c0 ensures !Found(sheet, r0, c0) {
        NotBoth(sheet, r0, c0);
      }
    }
  }

  lemma NotBoth(sheet: Sheet, r0: int, c0: int)
    requires NothingFound(sheet)
    ensures !Found(sheet, r0, c0)
  {
    if 0 <= r0 <= LOOKAHEAD {
      assert NoneShowsNear(sheet, r0);
    }
  }

  // ----- a window -----

  /** The showing cells are the rectangle of rows `r0` to `r1` and columns `c0` to `c1`. */
  ghost predicate Window(sheet: Sheet, r0: int, r1: int, c0: int, c1: int, columns: int) {
    && 0 <= r0 < r1 <= MAX_ROW && 0 <= c0 < c1 <= columns
    && forall r, c :: 0 <= r < MAX_ROW && 0 <= c < columns ==>
         (sheet(r, c) == Showing <==> r0 <= r < r1 && c0 <= c < c1)
  }

  lemma WindowRun(sheet: Sheet, r0: int, r1: int, c0: int, c1: int, columns: int, r: int)
    requires Window(sheet, r0, r1, c0, c1, columns) && 0 <= r < MAX_ROW
    ensures RunEnd(sheet, r, c0, columns) == if r0 <= r < r1 then c1 else c0
  {
    var end := RunEnd(sheet, r, c0, columns);
    assert end < columns ==> (sheet(r, end) == Showing <==> r0 <= r < r1 && c0 <= end < c1);
    if c0 < end {
      assert sheet(r, end - 1) == Showing;
    }
  }

  lemma Times(n: nat, width: nat)
    ensures (n + 1) * width == n * width + width
  {
  }

  lemma {:induction false} WindowVisits(sheet: Sheet, r0: int, r1: int, c0: int, c1: int, columns: int, r: int)
    requires Window(sheet, r0, r1, c0, c1, columns) && r0 <= r <= r1
    ensures HangingVisits(sheet, r, c0, columns, MAX_ROW)
            == (r1 - r) * (c1 - c0 + One(c1 < columns)) + One(r1 < MAX_ROW)
    decreases r1 - r
  {
    if r < MAX_ROW {
      WindowRun(sheet, r0, r1, c0, c1, columns, r);
    }
    if r < r1 {
      WindowVisits(sheet, r0, r1, c0, c1, columns, r + 1);
      Times(r1 - r - 1, c1 - c0 + One(c1 < columns));
    }
  }

  lemma WindowIsStaircase(sheet: Sheet, r0: int, r1: int, c0: int, c1: int, columns: int)
    requires Window(sheet, r0, r1, c0, c1, columns)
    ensures IsStaircase(sheet, r0, c0, columns, MAX_ROW)
  {
  }

  lemma WindowIsFound(sheet: Sheet, r0: int, r1: int, c0: int, c1: int, columns: int)
    requires columns > LOOKAHEAD + 1 && Window(sheet, r0, r1, c0, c1, columns)
    ensures r0 <= LOOKAHEAD && c0 <= LOOKAHEAD ==> Found(sheet, r0, c0)
    ensures r0 > LOOKAHEAD || c0 > LOOKAHEAD ==> NothingFound(sheet)
  {
    if r0 <= LOOKAHEAD && c0 <= LOOKAHEAD {
      assert sheet(r0, c0) == Showing;
    }
  }

  /** When the showing cells are a window, the scan, unless it raises, finds the same cells as asking every
      one of them exactly when the window's corner lies within the lookahead, at the cost stated; otherwise
      it finds none. */
  lemma WindowScan(sheet: Sheet, r0: int, r1: int, c0: int, c1: int, columns: int)
    requires columns > LOOKAHEAD + 1 && Window(sheet, r0, r1, c0, c1, columns)
    requires ScanSheet(sheet, columns).Some?
    ensures var scan := ScanSheet(sheet, columns).value;
            && (scan.emitted == ShowingCells(sheet, 0, columns, MAX_ROW) <==> r0 <= LOOKAHEAD && c0 <= LOOKAHEAD)
            && scan.visits == (if r0 <= LOOKAHEAD && c0 <= LOOKAHEAD
                then (LOOKAHEAD + 1) * r0 + c0 + (r1 - r0) * (c1 - c0 + One(c1 < columns)) + One(r1 < MAX_ROW)
                else (LOOKAHEAD + 1) * (LOOKAHEAD + 1))
  {
    WindowIsFound(sheet, r0, r1, c0, c1, columns);
    if r0 <= LOOKAHEAD && c0 <= LOOKAHEAD {
      ScanIsHanging(sheet, columns, r0, c0);
      WindowIsStaircase(sheet, r0, r1, c0, c1, columns);
      HangingIsAllIff(sheet, r0, c0, columns, MAX_ROW);
      WindowVisits(sheet, r0, r1, c0, c1, columns, r0);
    } else {
      ScanFindsNothing(sheet, columns);
      assert sheet(r0, c0) == Showing;
      ShowingMembers(sheet, 0, columns, MAX_ROW, (r0, c0));
    }
  }
}
