/**
 `_create_atspi_node`: the accessibility tree of the guest, turned into XML with bounds on depth and
 width. Objects may be defunct anywhere; outside a spreadsheet table the rest of the tree survives.
 */
module Accessibility {
  import opened Prelude
  import opened SheetScan

  const MAX_DEPTH := 50
  const MAX_WIDTH := 1024

  /** The role of an object, as far as it decides anything: "document spreadsheet", "application", "table",
      or another; the element's tag follows from it. */
  datatype Role = DocumentSpreadsheet | Application | Table | OtherRole(name: string)

  /** An accessible object. `isThunderbird`: its name is "Thunderbird". `fails`: reading the object itself
      raises. `showing`: None when asking for its state raises. `childFails`: fetching the child at that
      index raises. */
  datatype Node = Node(
    role: Role,
    isThunderbird: bool,
    fails: bool,
    showing: Option<bool>,
    children: seq<Node>,
    childFails: Option<nat>)

  /** An element: its tag, whether its name is "Thunderbird", and its children. */
  datatype Xml = Xml(role: Role, isThunderbird: bool, children: seq<Xml>)

  datatype Flag = NoFlag | Calc | Thunderbird

  /** The version of LibreOffice, None before it was read. */
  type Version = Option<seq<int>>

  /** A flag once set stays for the whole subtree. */
  function FlagOf(role: Role, isThunderbird: bool, flag: Flag): Flag {
    if flag != NoFlag then flag
    else if role == Application && isThunderbird then Thunderbird
    else if role == DocumentSpreadsheet then Calc
    else NoFlag
  }

  function FlagAt(node: Node, flag: Flag): Flag {
    FlagOf(node.role, node.isThunderbird, flag)
  }

  predicate IsSheet(node: Node, flag: Flag) {
    FlagAt(node, flag) == Calc && node.role == Table
  }

  /** Comparison of tuples: `a < b`. */
  predicate TupleLess(a: seq<int>, b: seq<int>) {
    if a == [] then b != []
    else if b == [] then false
    else a[0] < b[0] || (a[0] == b[0] && TupleLess(a[1..], b[1..]))
  }

  function Columns(version: seq<int>): int {
    if TupleLess(version, [7, 4]) then 1024 else 16384
  }

  lemma LessThanOne(a: seq<int>, b: int)
    ensures TupleLess(a, [b]) <==> a == [] || a[0] < b
  {
    if a != [] {
      assert !TupleLess(a[1..], [b][1..]);
    }
  }

  /** 1024 columns before version 7.4, whatever follows the first two numbers, and 16384 from then on; a lone 7 is
      before 7.4, and so is an empty version. */
  lemma ColumnsByVersion(major: int, rest: seq<int>)
    ensures Columns([major] + rest)
            == if major < 7 || (major == 7 && (rest == [] || rest[0] < 4)) then 1024 else 16384
    ensures Columns([]) == 1024
  {
    var version := [major] + rest;
    assert version[1..] == rest && [7, 4][1..] == [4];
    assert TupleLess(version, [7, 4]) <==> major < 7 || (major == 7 && TupleLess(rest, [4]));
    LessThanOne(rest, 4);
  }

  /** The table's children as a sheet: cell (r, c) is the child at r * columns + c. */
  function SheetOf(node: Node, columns: int): Sheet {
    (r, c) =>
      var index := r * columns + c;
      if !(0 <= index < |node.children|) || node.childFails == Some(index) then Fails
      else
        match node.children[index].showing
        case None => Fails
        case Some(showing) => if showing then Showing else Hidden
  }

  // ----- the tree that is built -----

  function CellIndex(cell: (int, int), columns: int): int {
    cell.0 * columns + cell.1
  }

  function Create(node: Node, depth: nat, flag: Flag, version: Version): Option<Xml>
    requires depth <= MAX_DEPTH
    decreases MAX_DEPTH - depth, 1
  {
    if node.fails then None
    else if depth == MAX_DEPTH then Some(Xml(node.role, node.isThunderbird, []))
    else if IsSheet(node, flag) then
      if version == None then None
      else SheetXml(node, Columns(version.value), Built(node, depth + 1, Calc, version))
    else Some(Xml(node.role, node.isThunderbird, Kids(Built(node, depth + 1, FlagAt(node, flag), version), node.childFails, 0)))
  }

  /** What building each child would give. */
  function Built(node: Node, depth: nat, flag: Flag, version: Version): (built: seq<Option<Xml>>)
    requires depth <= MAX_DEPTH
    ensures |built| == |node.children|
    decreases MAX_DEPTH - depth, 2
  {
    seq(|node.children|, i requires 0 <= i < |node.children| => Create(node.children[i], depth, flag, version))
  }

  /** The children from index `i` on, up to the first that cannot be had or built, and up to the width. */
  function Kids(built: seq<Option<Xml>>, childFails: Option<nat>, i: nat): seq<Xml>
    requires i <= |built|
    decreases |built| - i
  {
    if i == |built| || childFails == Some(i) || i == MAX_WIDTH || built[i] == None then []
    else [built[i].value] + Kids(built, childFails, i + 1)
  }

  /** What the table branch gives: the images of the scanned cells, or an exception. */
  function SheetXml(node: Node, columns: int, built: seq<Option<Xml>>): Option<Xml>
    requires columns > 0
  {
    var scan := ScanSheet(SheetOf(node, columns), columns);
    var images := if scan == None then None else Images(built, columns, scan.value.emitted);
    if images == None then None else Some(Xml(node.role, node.isThunderbird, images.value))
  }

  /** The images of the scanned cells; None when one of them cannot be built. */
  function Images(built: seq<Option<Xml>>, columns: int, cells: seq<(int, int)>): Option<seq<Xml>> {
    if cells == [] then Some([])
    else
      var n := |cells| - 1;
      var before := Images(built, columns, cells[..n]);
      var index := CellIndex(cells[n], columns);
      if before.Some? && 0 <= index < |built| && built[index].Some? then Some(before.value + [built[index].value])
      else None
  }

  // ----- what it guarantees -----

  /** At most `height` levels below the root, and at most 1024 children everywhere, except in the tables
      of a spreadsheet. */
  predicate Bounded(xml: Xml, height: int, flag: Flag)
    decreases xml
  {
    var here := FlagOf(xml.role, xml.isThunderbird, flag);
    && height >= 0
    && (!(here == Calc && xml.role == Table) ==> |xml.children| <= 1024)
    && forall i :: 0 <= i < |xml.children| ==> Bounded(xml.children[i], height - 1, here)
  }

  /** `kids` are the images of the children from index `i` on, in order, as far as they can be had. */
  predicate PrefixFrom(built: seq<Option<Xml>>, childFails: Option<nat>, i: nat, kids: seq<Xml>) {
    var stop := i + |kids|;
    && stop <= |built| && stop <= MAX_WIDTH
    && (forall j :: i <= j < stop ==> built[j] == Some(kids[j - i]))
    && (stop == |built| || stop == MAX_WIDTH || childFails == Some(stop) || built[stop] == None)
  }

  lemma {:induction false} KidsArePrefix(built: seq<Option<Xml>>, childFails: Option<nat>, i: nat)
    requires i <= |built| && i <= MAX_WIDTH
    ensures PrefixFrom(built, childFails, i, Kids(built, childFails, i))
    decreases |built| - i
  {
    if Kids(built, childFails, i) != [] {
      KidsArePrefix(built, childFails, i + 1);
    }
  }

  /** Outside a spreadsheet table only the object itself can make the call fail, and its children are the
      images of a prefix of the real ones: all of them, the first 1024, or those before the first
      that raised. */
  lemma ChildrenAreAPrefix(node: Node, depth: nat, flag: Flag, version: Version)
    requires depth < 50 && !IsSheet(node, flag)
    ensures Create(node, depth, flag, version) == None <==> node.fails
    ensures !node.fails ==>
              var kids := Create(node, depth, flag, version).value.children;
              var stop := |kids|;
              && stop <= |node.children| && stop <= 1024
              && (forall j :: 0 <= j < stop ==>
                    Create(node.children[j], depth + 1, FlagAt(node, flag), version) == Some(kids[j]))
              && (|| stop == |node.children| || stop == 1024 || node.childFails == Some(stop)
                  || Create(node.children[stop], depth + 1, FlagAt(node, flag), version) == None)
  {
    if !node.fails {
      var built := Built(node, depth + 1, FlagAt(node, flag), version);
      KidsArePrefix(built, node.childFails, 0);
      var kids := Kids(built, node.childFails, 0);
      assert Create(node, depth, flag, version).value.children == kids;
      forall j | 0 <= j < |kids|
        ensures Create(node.children[j], depth + 1, FlagAt(node, flag), version) == Some(kids[j])
      {
        assert built[j] == Some(kids[j]);
      }
    }
  }

  /** Each image is that of the child its cell stands for. */
  predicate ImagesOfCells(built: seq<Option<Xml>>, columns: int, cells: seq<(int, int)>, images: seq<Xml>) {
    && |images| == |cells|
    && forall k :: 0 <= k < |cells| ==>
         0 <= CellIndex(cells[k], columns) < |built| && built[CellIndex(cells[k], columns)] == Some(images[k])
  }

  lemma {:induction false} ImagesFollowCells(built: seq<Option<Xml>>, columns: int, cells: seq<(int, int)>)
    ensures Images(built, columns, cells).Some? ==>
              ImagesOfCells(built, columns, cells, Images(built, columns, cells).value)
  {
    if cells != [] {
      ImagesFollowCells(built, columns, cells[..|cells| - 1]);
    }
  }

  lemma SheetIsImages(node: Node, depth: nat, flag: Flag, version: Version, xml: Xml)
    requires depth < MAX_DEPTH && IsSheet(node, flag) && Create(node, depth, flag, version) == Some(xml)
    ensures version.Some?
    ensures var columns := Columns(version.value);
            var scan := ScanSheet(SheetOf(node, columns), columns);
            && xml.role == Table && xml.isThunderbird == node.isThunderbird && scan.Some?
            && ImagesOfCells(Built(node, depth + 1, Calc, version), columns, scan.value.emitted, xml.children)
  {
    var columns := Columns(version.value);
    var scan := ScanSheet(SheetOf(node, columns), columns);
    ImagesFollowCells(Built(node, depth + 1, Calc, version), columns, scan.value.emitted);
  }

  lemma {:induction false} SheetIsBounded(node: Node, depth: nat, flag: Flag, version: Version, xml: Xml)
    requires depth < MAX_DEPTH && IsSheet(node, flag) && Create(node, depth, flag, version) == Some(xml)
    ensures Bounded(xml, MAX_DEPTH - depth, flag)
    decreases MAX_DEPTH - depth, 0
  {
    SheetIsImages(node, depth, flag, version, xml);
    var columns := Columns(version.value);
    var cells := ScanSheet(SheetOf(node, columns), columns).value.emitted;
    forall k | 0 <= k < |xml.children| ensures Bounded(xml.children[k], MAX_DEPTH - depth - 1, Calc) {
      TreeIsBounded(node.children[CellIndex(cells[k], columns)], depth + 1, Calc, version, xml.children[k]);
    }
  }

  lemma {:induction false} OtherIsBounded(node: Node, depth: nat, flag: Flag, version: Version, xml: Xml)
    requires depth < MAX_DEPTH && !IsSheet(node, flag) && Create(node, depth, flag, version) == Some(xml)
    ensures Bounded(xml, MAX_DEPTH - depth, flag)
    decreases MAX_DEPTH - depth, 0
  {
    ChildrenAreAPrefix(node, depth, flag, version);
    forall k | 0 <= k < |xml.children|
      ensures Bounded(xml.children[k], MAX_DEPTH - depth - 1, FlagAt(node, flag))
    {
      TreeIsBounded(node.children[k], depth + 1, FlagAt(node, flag), version, xml.children[k]);
    }
  }

  /** No element is deeper than 50, and only the tables of a spreadsheet have more than 1024 children. */
  lemma {:induction false} TreeIsBounded(node: Node, depth: nat, flag: Flag, version: Version, xml: Xml)
    requires depth <= 50 && Create(node, depth, flag, version) == Some(xml)
    ensures Bounded(xml, 50 - depth, flag)
    decreases MAX_DEPTH - depth, 1
  {
    if depth == MAX_DEPTH {
      assert xml.children == [];
    } else if IsSheet(node, flag) {
      SheetIsBounded(node, depth, flag, version, xml);
    } else {
      OtherIsBounded(node, depth, flag, version, xml);
    }
  }

  /** The table of a spreadsheet whose showing cells are a window near the origin comes out with exactly
      those cells, in reading order, each the image of its own child. */
  lemma SheetShowsItsWindow(node: Node, depth: nat, flag: Flag, version: Version, xml: Xml,
                            r0: int, r1: int, c0: int, c1: int)
    requires depth < MAX_DEPTH && IsSheet(node, flag) && Create(node, depth, flag, version) == Some(xml)
    requires version.Some? && r0 <= LOOKAHEAD && c0 <= LOOKAHEAD
    requires Window(SheetOf(node, Columns(version.value)), r0, r1, c0, c1, Columns(version.value))
    ensures var columns := Columns(version.value);
            var cells := ShowingCells(SheetOf(node, columns), 0, columns, MAX_ROW);
            && |xml.children| == |cells|
            && forall k :: 0 <= k < |cells| ==>
                 && 0 <= CellIndex(cells[k], columns) < |node.children|
                 && Create(node.children[CellIndex(cells[k], columns)], depth + 1, Calc, version)
                    == Some(xml.children[k])
  {
    var columns := Columns(version.value);
    WindowScan(SheetOf(node, columns), r0, r1, c0, c1, columns);
    SheetIsImages(node, depth, flag, version, xml);
  }

  // ----- the loops -----

  /** `_create_atspi_node`; None is an exception. */
  method CreateNode(node: Node, depth: nat, flag: Flag, version: Version) returns (xml: Option<Xml>)
    requires depth <= MAX_DEPTH
    ensures xml == Create(node, depth, flag, version)
    decreases MAX_DEPTH - depth, 2
  {
    if node.fails {
      return None;
    }
    var here := FlagAt(node, flag);
    if depth == MAX_DEPTH {
      return Some(Xml(node.role, node.isThunderbird, []));
    }
    if here == Calc && node.role == Table {
      if version == None {
        return None;
      }
      xml := CreateSheet(node, Columns(version.value), depth + 1, version, Built(node, depth + 1, Calc, version));
    } else {
      var kids := CreateChildren(node, depth + 1, here, version, Built(node, depth + 1, here, version));
      xml := Some(Xml(node.role, node.isThunderbird, kids));
    }
  }

  ghost predicate AreBuilt(node: Node, depth: nat, flag: Flag, version: Version, built: seq<Option<Xml>>)
    requires depth <= MAX_DEPTH
  {
    && |built| == |node.children|
    && forall i {:trigger Create(node.children[i], depth, flag, version)} ::
         0 <= i < |built| ==> built[i] == Create(node.children[i], depth, flag, version)
  }

  /** The loop over the children, which swallows whatever is raised in it. */
  method CreateChildren(node: Node, depth: nat, flag: Flag, version: Version, ghost built: seq<Option<Xml>>)
    returns (kids: seq<Xml>)
    requires depth <= MAX_DEPTH
    requires AreBuilt(node, depth, flag, version, built)
    ensures kids == Kids(built, node.childFails, 0)
    decreases MAX_DEPTH - depth, 3
  {
    kids := [];
    var i := 0;
    while i < |node.children|
      invariant i <= |node.children|
      invariant kids + Kids(built, node.childFails, i) == Kids(built, node.childFails, 0)
    {
      if node.childFails == Some(i) || i == MAX_WIDTH {
        return;
      }
      var kid := CreateNode(node.children[i], depth, flag, version);
      if kid == None {
        return;
      }
      kids := kids + [kid.value];
      i := i + 1;
    }
  }

  /** When a prefix of the cells cannot be built, neither can the whole. */
  lemma {:induction false} FailedPrefix(built: seq<Option<Xml>>, columns: int, prefix: seq<(int, int)>,
                                        cells: seq<(int, int)>)
    requires prefix <= cells && Images(built, columns, prefix) == None
    ensures Images(built, columns, cells) == None
    decreases |cells|
  {
    if prefix != cells {
      FailedPrefix(built, columns, prefix, cells[..|cells| - 1]);
    }
  }

  lemma ImagesExtend(built: seq<Option<Xml>>, columns: int, cells: seq<(int, int)>, cell: (int, int))
    requires 0 <= CellIndex(cell, columns) < |built|
    ensures var before := Images(built, columns, cells);
            var last := built[CellIndex(cell, columns)];
            Images(built, columns, cells + [cell])
            == if before.Some? && last.Some? then Some(before.value + [last.value]) else None
  {
    assert (cells + [cell])[..|cells|] == cells;
  }

  /** Asking cell `index` of the table for its state; None when that raises. */
  method CellState(node: Node, columns: int, index: int, ghost cell: (int, int)) returns (showing: Option<bool>)
    requires index == CellIndex(cell, columns)
    ensures SheetOf(node, columns)(cell.0, cell.1)
            == if showing == None then Fails else if showing.value then Showing else Hidden
    ensures showing.Some? ==> 0 <= index < |node.children|
  {
    if index < 0 || index >= |node.children| || node.childFails == Some(index) {
      showing := None;
    } else {
      showing := node.children[index].showing;
    }
  }

  predicate EndsRow(s: Scan, clm: int, columns: int, showing: bool) {
    clm + 1 == columns || (!showing && (s.base.Some? || clm >= LOOKAHEAD))
  }

  lemma RowStep(sheet: Sheet, r: int, clm: int, columns: int, s: Scan)
    requires 0 <= clm < columns && BaseIn(s, columns) && sheet(r, clm) != Fails
    ensures var showing := sheet(r, clm) == Showing;
            ScanRow(sheet, r, clm, columns, s)
            == if EndsRow(s, clm, columns, showing) then Some(Visit(s, r, clm, showing))
               else ScanRow(sheet, r, clm + 1, columns, Visit(s, r, clm, showing))
  {
  }

  /** The inner loop: one row from the learned column on. None is an exception. */
  method CreateRow(node: Node, columns: int, r: int, indexBase: int, depth: nat, version: Version, start: seq<Xml>,
                   columnBase0: Option<int>, ghost s0: Scan, ghost built: seq<Option<Xml>>)
    returns (children: Option<seq<Xml>>, columnBase: Option<int>, clm: int)
    requires depth <= MAX_DEPTH && columns > 0 && indexBase == r * columns
    requires BaseIn(s0, columns) && columnBase0 == s0.base
    requires AreBuilt(node, depth, Calc, version, built) && Images(built, columns, s0.emitted) == Some(start)
    ensures var row := ScanRow(SheetOf(node, columns), r, FirstColumn(s0), columns, s0);
            && (children.Some? ==> row.Some? && columnBase == row.value.base && clm == row.value.clm
                                   && Images(built, columns, row.value.emitted) == children)
            && (children.None? && row.Some? ==> Images(built, columns, row.value.emitted) == None)
    decreases MAX_DEPTH - depth, 3
  {
    ghost var sheet := SheetOf(node, columns);
    children, columnBase := Some(start), columnBase0;
    ghost var s := s0;
    clm := if columnBase.Some? then columnBase.value else 0;
    ghost var row := ScanRow(sheet, r, clm, columns, s0);
    var firstShowing := columnBase.Some?;
    while true
      invariant 0 <= clm < columns && BaseIn(s, columns) && columnBase == s.base && firstShowing == s.base.Some?
      invariant ScanRow(sheet, r, clm, columns, s) == row
      invariant children.Some? && Images(built, columns, s.emitted) == children
      decreases columns - clm
    {
      var showing := CellState(node, columns, indexBase + clm, (r, clm));
      if showing == None {
        children := None;
        return;
      }
      RowStep(sheet, r, clm, columns, s);
      var stop := clm + 1 == columns || (!showing.value && ((firstShowing && columnBase.Some?) || clm >= LOOKAHEAD));
      ImagesExtend(built, columns, s.emitted, (r, clm));
      s := Visit(s, r, clm, showing.value);
      if showing.value {
        var image := CreateNode(node.children[indexBase + clm], depth, Calc, version);
        assert built[indexBase + clm] == Create(node.children[indexBase + clm], depth, Calc, version);
        if image == None {
          children := None;
          PrefixFailsRow(built, columns, s, row);
          return;
        }
        if !firstShowing {
          columnBase := Some(clm);
          firstShowing := true;
        }
        children := Some(children.value + [image.value]);
      }
      if stop {
        return;
      }
      clm := clm + 1;
    }
  }

  lemma PrefixFailsRow(built: seq<Option<Xml>>, columns: int, s: Scan, row: Option<Scan>)
    requires Images(built, columns, s.emitted) == None
    requires row.Some? ==> s.emitted <= row.value.emitted
    ensures row.Some? ==> Images(built, columns, row.value.emitted) == None
  {
    if row.Some? {
      FailedPrefix(built, columns, s.emitted, row.value.emitted);
    }
  }

  function ImagesOf(built: seq<Option<Xml>>, columns: int, scan: Option<Scan>): Option<seq<Xml>> {
    if scan == None then None else Images(built, columns, scan.value.emitted)
  }

  /** The scan goes on behind a row, or ends with it. */
  lemma RowsStep(sheet: Sheet, r: int, columns: int, s0: Scan, s: Scan)
    requires 0 <= r < MAX_ROW && columns > 0 && BaseIn(s0, columns)
    requires ScanRow(sheet, r, FirstColumn(s0), columns, s0) == Some(s)
    ensures BaseIn(s, columns)
    ensures ScanRows(sheet, r, columns, MAX_ROW, s0)
            == if LeavesSheet(s, r) then Some(s) else ScanRows(sheet, r + 1, columns, MAX_ROW, s)
  {
  }

  /** The outer loop: rows with a running index, until a row shows that nothing more is to come. None is an
      exception. */
  method CreateRows(node: Node, columns: int, depth: nat, version: Version, ghost built: seq<Option<Xml>>)
    returns (children: Option<seq<Xml>>)
    requires depth <= MAX_DEPTH && columns > 0
    requires AreBuilt(node, depth, Calc, version, built)
    ensures children == ImagesOf(built, columns, ScanSheet(SheetOf(node, columns), columns))
    decreases MAX_DEPTH - depth, 4
  {
    ghost var sheet := SheetOf(node, columns);
    ghost var whole := ScanSheet(sheet, columns);
    children := Some([]);
    var indexBase := 0;
    var columnBase: Option<int> := None;
    var r := 0;
    ghost var s := NOTHING;
    while r < MAX_ROW
      invariant 0 <= r <= MAX_ROW && indexBase == r * columns
      invariant BaseIn(s, columns) && columnBase == s.base
      invariant ScanRows(sheet, r, columns, MAX_ROW, s) == whole
      invariant children.Some? && Images(built, columns, s.emitted) == children
    {
      ghost var s0 := s;
      var clm;
      children, columnBase, clm :=
        CreateRow(node, columns, r, indexBase, depth, version, children.value, columnBase, s0, built);
      if children == None {
        RowFails(built, columns, sheet, r, s0, whole);
        return;
      }
      s := ScanRow(sheet, r, FirstColumn(s0), columns, s0).value;
      RowsStep(sheet, r, columns, s0, s);
      if columnBase == Some(clm) || (columnBase == None && r >= LOOKAHEAD) {
        return;
      }
      Times(r, columns);
      indexBase := indexBase + columns;
      r := r + 1;
    }
  }

  method CreateSheet(node: Node, columns: int, depth: nat, version: Version, ghost built: seq<Option<Xml>>)
    returns (xml: Option<Xml>)
    requires depth <= MAX_DEPTH && columns > 0
    requires AreBuilt(node, depth, Calc, version, built)
    ensures xml == SheetXml(node, columns, built)
    decreases MAX_DEPTH - depth, 5
  {
    var children := CreateRows(node, columns, depth, version, built);
    xml := if children == None then None else Some(Xml(node.role, node.isThunderbird, children.value));
  }

  lemma RowFails(built: seq<Option<Xml>>, columns: int, sheet: Sheet, r: int, s0: Scan, whole: Option<Scan>)
    requires 0 <= r < MAX_ROW && columns > 0 && BaseIn(s0, columns)
    requires ScanRows(sheet, r, columns, MAX_ROW, s0) == whole
    requires var row := ScanRow(sheet, r, FirstColumn(s0), columns, s0);
             row.Some? ==> Images(built, columns, row.value.emitted) == None
    ensures whole.Some? ==> Images(built, columns, whole.value.emitted) == None
  {
    var row := ScanRow(sheet, r, FirstColumn(s0), columns, s0);
    if whole.Some? {
      FailedPrefix(built, columns, row.value.emitted, whole.value.emitted);
    }
  }
}
