/** Which tables of a whole tree are scanned as sheets, told by the objects above them. */
module SpreadsheetPaths {
  import opened Prelude
  import opened SheetScan
  import opened Accessibility

  /** `path` leads down from `root` by child indices. */
  predicate IsPath(root: Node, path: seq<nat>)
    decreases |path|
  {
    path == [] || (path[0] < |root.children| && IsPath(root.children[path[0]], path[1..]))
  }

  function NodeAt(root: Node, path: seq<nat>): Node
    requires IsPath(root, path)
    decreases |path|
  {
    if path == [] then root else NodeAt(root.children[path[0]], path[1..])
  }

  /** The objects above the end of the path, the root first. */
  function Above(root: Node, path: seq<nat>): (above: seq<Node>)
    requires IsPath(root, path)
    ensures |above| == |path|
    decreases |path|
  {
    if path == [] then [] else [root] + Above(root.children[path[0]], path[1..])
  }

  /** The element at the same place of the tree that was built. */
  function XmlAt(xml: Xml, path: seq<nat>): Option<Xml>
    decreases |path|
  {
    if path == [] then Some(xml)
    else if path[0] < |xml.children| then XmlAt(xml.children[path[0]], path[1..])
    else None
  }

  /** Some object above is a document spreadsheet, and no application named Thunderbird comes before the first. */
  ghost predicate InSpreadsheet(above: seq<Node>) {
    exists i :: IsFirstSpreadsheet(above, i)
  }

  predicate IsFirstSpreadsheet(above: seq<Node>, i: int) {
    && 0 <= i < |above| && above[i].role == DocumentSpreadsheet
    && forall j :: 0 <= j < i ==> !(above[j].role == Application && above[j].isThunderbird)
  }

  function FlagAfter(above: seq<Node>, flag: Flag): Flag {
    if above == [] then flag else FlagAt(above[|above| - 1], FlagAfter(above[..|above| - 1], flag))
  }

  ghost predicate InThunderbird(above: seq<Node>) {
    exists i :: IsFirstThunderbird(above, i)
  }

  predicate IsFirstThunderbird(above: seq<Node>, i: int) {
    && 0 <= i < |above| && above[i].role == Application && above[i].isThunderbird
    && forall j :: 0 <= j < i ==> above[j].role != DocumentSpreadsheet
  }

  lemma FirstStays(above: seq<Node>, node: Node)
    ensures InSpreadsheet(above + [node])
            <==> InSpreadsheet(above) || (node.role == DocumentSpreadsheet && !InThunderbird(above))
    ensures InThunderbird(above + [node])
            <==> InThunderbird(above) || (node.role == Application && node.isThunderbird && !InSpreadsheet(above))
  {
    var all := above + [node];
    forall i | 0 <= i < |above|
      ensures IsFirstSpreadsheet(all, i) <==> IsFirstSpreadsheet(above, i)
      ensures IsFirstThunderbird(all, i) <==> IsFirstThunderbird(above, i)
    {
      assert forall j :: 0 <= j <= i ==> all[j] == above[j];
    }
    NoneOfBoth(above, |above|);
    assert all[|above|] == node;
    if node.role == DocumentSpreadsheet && !InThunderbird(above) && !InSpreadsheet(above) {
      assert IsFirstSpreadsheet(all, |above|);
    }
    if node.role == Application && node.isThunderbird && !InSpreadsheet(above) && !InThunderbird(above) {
      assert IsFirstThunderbird(all, |above|);
    }
    if i :| IsFirstSpreadsheet(all, i) {
      assert i < |above| ==> IsFirstSpreadsheet(above, i);
    }
    if i :| IsFirstThunderbird(all, i) {
      assert i < |above| ==> IsFirstThunderbird(above, i);
    }
  }

  /** Without a first spreadsheet and a first Thunderbird there is neither anywhere. */
  lemma {:induction false} NoneOfBoth(above: seq<Node>, n: nat)
    requires n <= |above|
    ensures !InSpreadsheet(above) && !InThunderbird(above) ==>
              forall j :: 0 <= j < n ==> above[j].role != DocumentSpreadsheet
                                         && !(above[j].role == Application && above[j].isThunderbird)
  {
    if n > 0 {
      NoneOfBoth(above, n - 1);
      if !InSpreadsheet(above) && !InThunderbird(above) {
        assert !IsFirstSpreadsheet(above, n - 1) && !IsFirstThunderbird(above, n - 1);
      }
    }
  }

  lemma NotBoth(above: seq<Node>)
    ensures !(InSpreadsheet(above) && InThunderbird(above))
  {
    forall i, j ensures !(IsFirstSpreadsheet(above, i) && IsFirstThunderbird(above, j)) {
    }
  }

  /** The flag below `above`, when the root was called without one. */
  lemma {:induction false} FlagMeans(above: seq<Node>)
    ensures FlagAfter(above, NoFlag)
            == if InSpreadsheet(above) then Calc else if InThunderbird(above) then Thunderbird else NoFlag
  {
    if above != [] {
      var n := |above| - 1;
      FlagMeans(above[..n]);
      FirstStays(above[..n], above[n]);
      NotBoth(above[..n]);
      NotBoth(above);
      assert above == above[..n] + [above[n]];
    }
  }

  /** Called without a flag, the walk scans exactly the tables in a spreadsheet as sheets. */
  lemma SheetIff(above: seq<Node>, node: Node)
    ensures IsSheet(node, FlagAfter(above, NoFlag)) <==> node.role == Table && InSpreadsheet(above)
  {
    FlagMeans(above);
  }

  // ----- from the root to the table -----

  /** No object above is itself a table that is scanned: positions in both trees agree. */
  ghost predicate NoneScanned(above: seq<Node>) {
    forall k :: 0 <= k < |above| && above[k].role == Table ==> !InSpreadsheet(above[..k])
  }

  lemma LastOnPath(root: Node, path: seq<nat>)
    requires IsPath(root, path) && path != []
    ensures var n := |path| - 1;
            && IsPath(root, path[..n]) && path[n] < |NodeAt(root, path[..n]).children|
            && Above(root, path) == Above(root, path[..n]) + [NodeAt(root, path[..n])]
            && NodeAt(root, path) == NodeAt(root, path[..n]).children[path[n]]
    decreases |path|
  {
    var n := |path| - 1;
    if n > 0 {
      LastOnPath(root.children[path[0]], path[1..]);
      assert path[1..][..n - 1] == path[..n][1..];
    }
  }

  lemma {:induction false} LastOfXml(xml: Xml, path: seq<nat>)
    requires path != [] && XmlAt(xml, path).Some?
    ensures var n := |path| - 1;
            && XmlAt(xml, path[..n]).Some? && path[n] < |XmlAt(xml, path[..n]).value.children|
            && XmlAt(xml, path) == Some(XmlAt(xml, path[..n]).value.children[path[n]])
    decreases |path|
  {
    var n := |path| - 1;
    if n > 0 {
      LastOfXml(xml.children[path[0]], path[1..]);
      assert path[1..][..n - 1] == path[..n][1..];
    }
  }

  /** What stands at the end of a path was built from the object there, with the flag of the objects above. */
  lemma {:induction false} BuiltOnPath(root: Node, path: seq<nat>, version: Version, xml: Xml, x: Xml)
    requires Create(root, 0, NoFlag, version) == Some(xml)
    requires IsPath(root, path) && XmlAt(xml, path) == Some(x) && NoneScanned(Above(root, path))
    ensures |path| <= MAX_DEPTH
    ensures Create(NodeAt(root, path), |path|, FlagAfter(Above(root, path), NoFlag), version) == Some(x)
    decreases |path|
  {
    if path != [] {
      var n := |path| - 1;
      LastOnPath(root, path);
      LastOfXml(xml, path);
      var above, parent := Above(root, path[..n]), NodeAt(root, path[..n]);
      var parentXml := XmlAt(xml, path[..n]).value;
      NoneScannedAbove(above, parent);
      BuiltOnPath(root, path[..n], version, xml, parentXml);
      SheetIff(above, parent);
      ChildBuilt(parent, n, FlagAfter(above, NoFlag), version, parentXml, path[n]);
      assert (above + [parent])[..n] == above;
    }
  }

  lemma NoneScannedAbove(above: seq<Node>, node: Node)
    requires NoneScanned(above + [node])
    ensures NoneScanned(above) && (node.role == Table ==> !InSpreadsheet(above))
  {
    var all := above + [node];
    assert all[..|above|] == above && all[|above|] == node;
    forall k | 0 <= k < |above| && above[k].role == Table ensures !InSpreadsheet(above[..k]) {
      assert all[k] == above[k] && all[..k] == above[..k];
    }
  }

  lemma ChildBuilt(node: Node, depth: nat, flag: Flag, version: Version, xml: Xml, k: nat)
    requires depth <= MAX_DEPTH && Create(node, depth, flag, version) == Some(xml)
    requires !IsSheet(node, flag) && k < |xml.children| && k < |node.children|
    ensures depth < MAX_DEPTH
    ensures Create(node.children[k], depth + 1, FlagAt(node, flag), version) == Some(xml.children[k])
  {
    if depth < MAX_DEPTH {
      ChildrenAreAPrefix(node, depth, flag, version);
    }
  }

  /** The table of a document spreadsheet whose showing cells are a window near the origin comes out with exactly
      those cells, in reading order, each the image of its own child. */
  lemma SpreadsheetShowsItsWindow(root: Node, path: seq<nat>, version: Version, xml: Xml, x: Xml,
                                  r0: int, r1: int, c0: int, c1: int)
    requires Create(root, 0, NoFlag, version) == Some(xml)
    requires IsPath(root, path) && XmlAt(xml, path) == Some(x) && |path| < MAX_DEPTH
    requires NodeAt(root, path).role == Table && InSpreadsheet(Above(root, path)) && NoneScanned(Above(root, path))
    requires r0 <= LOOKAHEAD && c0 <= LOOKAHEAD
    requires version.Some? ==>
               var columns := Columns(version.value);
               Window(SheetOf(NodeAt(root, path), columns), r0, r1, c0, c1, columns)
    ensures version.Some? && x.role == Table
    ensures var node, columns := NodeAt(root, path), Columns(version.value);
            var cells := ShowingCells(SheetOf(node, columns), 0, columns, MAX_ROW);
            && |x.children| == |cells|
            && forall k :: 0 <= k < |cells| ==>
                 && 0 <= CellIndex(cells[k], columns) < |node.children|
                 && Create(node.children[CellIndex(cells[k], columns)], |path| + 1, Calc, version)
                    == Some(x.children[k])
  {
    var node, flag := NodeAt(root, path), FlagAfter(Above(root, path), NoFlag);
    BuiltOnPath(root, path, version, xml, x);
    SheetIff(Above(root, path), node);
    SheetIsImages(node, |path|, flag, version, x);
    SheetShowsItsWindow(node, |path|, flag, version, x, r0, r1, c0, c1);
  }

  /** Any other table comes out as its first children, at most 1024 of them. */
  lemma OtherTableIsAPrefix(root: Node, path: seq<nat>, version: Version, xml: Xml, x: Xml)
    requires Create(root, 0, NoFlag, version) == Some(xml)
    requires IsPath(root, path) && XmlAt(xml, path) == Some(x) && |path| < MAX_DEPTH
    requires NodeAt(root, path).role == Table && !InSpreadsheet(Above(root, path)) && NoneScanned(Above(root, path))
    ensures var node, flag := NodeAt(root, path), FlagAfter(Above(root, path), NoFlag);
            && |x.children| <= 1024 && |x.children| <= |node.children|
            && forall k :: 0 <= k < |x.children| ==>
                 Create(node.children[k], |path| + 1, FlagAt(node, flag), version) == Some(x.children[k])
  {
    var node, flag := NodeAt(root, path), FlagAfter(Above(root, path), NoFlag);
    BuiltOnPath(root, path, version, xml, x);
    SheetIff(Above(root, path), node);
    ChildrenAreAPrefix(node, |path|, flag, version);
  }
}
