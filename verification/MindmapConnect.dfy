/** The connect gesture on a mindmap: the text edit it makes is the tree edit it is meant to be. */
module MindmapConnect {
  import opened Wrappers
  import opened MindmapTree
  import opened MindmapMove
  import opened MindmapPatch

  // ---- Levels agree with indentation ----

  ghost function Depths(ind: seq<int>): (r: seq<int>)
    ensures |r| == |ind| && forall k :: 0 <= k < |ind| ==> r[k] == Depth(ind, k)
  {
    seq(|ind|, k requires 0 <= k < |ind| => Depth(ind, k))
  }

  /** `x` is `c` or a descendant of `c`. */
  ghost predicate Under(ind: seq<int>, c: nat, x: nat)
    requires x < |ind|
    decreases x
  {
    x == c || (Parent(ind, x).Some? && Under(ind, c, Parent(ind, x).value))
  }

  lemma {:induction false} RunIsDeeper(ind: seq<int>, y: nat, m: nat)
    requires y < m < |ind| && forall i :: y < i <= m ==> ind[i] > ind[y]
    ensures Depth(ind, m) > Depth(ind, y)
  {
    ParentNotBefore(ind, m, y);
    var z := Parent(ind, m).value;
    if z != y { RunIsDeeper(ind, y, z); }
  }

  lemma {:induction false} UnderRuns(ind: seq<int>, c: nat, x: nat)
    requires x < |ind| && Under(ind, c, x) && x != c
    ensures c < x && forall m :: c < m <= x ==> ind[m] > ind[c]
    decreases x
  {
    var y := Parent(ind, x).value;
    if y != c { UnderRuns(ind, c, y); }
  }

  lemma {:induction false} RunIsUnder(ind: seq<int>, c: nat, x: nat)
    requires c < x < |ind| && forall m :: c < m <= x ==> Depth(ind, m) > Depth(ind, c)
    ensures Under(ind, c, x)
  {
    assert Depth(ind, x) > Depth(ind, c);
    var y := Parent(ind, x).value;
    if y < c { RunIsDeeper(ind, y, c); }
    if y > c { RunIsUnder(ind, c, y); }
  }

  /** The run of nodes at a greater level is the subtree: by indentation and by ancestry. */
  lemma LevelRunIsSubtree(ind: seq<int>, c: nat, e: nat)
    requires IsSubtree(Depths(ind), c, e)
    ensures IsSubtree(ind, c, e)
    ensures forall x :: 0 <= x < |ind| ==> (Under(ind, c, x) <==> c <= x < e)
  {
    forall x | c < x < e ensures Under(ind, c, x) && ind[x] > ind[c] {
      RunIsUnder(ind, c, x);
      UnderRuns(ind, c, x);
    }
    if e < |ind| && ind[e] > ind[c] { RunIsDeeper(ind, c, e); }
    forall x | 0 <= x < |ind| && Under(ind, c, x) ensures c <= x < e {
      if x != c { UnderRuns(ind, c, x); }
    }
  }

  // ---- The document ----

  datatype Node = Node(level: nat, parent: Option<nat>)

  /** The lines of the text, the nodes the parser read from them, and the line of each node's label where it has one. */
  datatype Document = Document(lines: seq<string>, nodes: seq<Node>, lineOf: seq<Option<nat>>)

  ghost function Tree(lines: seq<string>, isNode: string -> bool): seq<int> { Indents(NodesOf(lines, isNode)) }

  ghost predicate NodesRead(nodes: seq<Node>, ind: seq<int>) {
    |nodes| == |ind| && forall k :: 0 <= k < |ind| ==> nodes[k] == Node(Depth(ind, k), Parent(ind, k))
  }

  ghost predicate SpansRead(lineOf: seq<Option<nat>>, lines: seq<string>, isNode: string -> bool) {
    forall k :: 0 <= k < |lineOf| && lineOf[k].Some? ==> LineIs(lines, isNode, k, lineOf[k].value)
  }

  ghost predicate Parsed(d: Document, isNode: string -> bool) {
    && !isNode("") && |d.lineOf| == |d.nodes|
    && NodesRead(d.nodes, Tree(d.lines, isNode)) && SpansRead(d.lineOf, d.lines, isNode)
  }

  /** A re-parenting that can be carried out: `c` has a parent other than `p`, `p` is not in `c`'s subtree, whose last
  node is `e - 1`, and the three lines the edit needs are known. */
  ghost predicate Connectable(ind: seq<int>, lineOf: seq<Option<nat>>, p: nat, c: nat, e: nat) {
    && |lineOf| == |ind| && p < |ind| && c < |ind| && IsSubtree(ind, c, e)
    && Parent(ind, c).Some? && Parent(ind, c) != Some(p) && !Under(ind, c, p)
    && lineOf[c].Some? && lineOf[e - 1].Some? && lineOf[p].Some?
  }

  lemma SubtreeEndIsUnique(ind: seq<int>, c: nat, e: nat, f: nat)
    requires IsSubtree(ind, c, e) && IsSubtree(ind, c, f)
    ensures e == f
  {
  }

  function LevelShift(d: Document, p: nat, c: nat): int
    requires p < |d.nodes| && c < |d.nodes|
  {
    (d.nodes[p].level + 1 - d.nodes[c].level) * INDENT_STEP
  }

  lemma LinesInOrder(lines: seq<string>, isNode: string -> bool, a: nat, b: nat, aLine: nat, bLine: nat)
    requires LineIs(lines, isNode, a, aLine) && LineIs(lines, isNode, b, bLine) && a <= b
    ensures aLine <= bLine && (a < b ==> aLine < bLine)
  {
    if bLine < aLine {
      NodesUpTo(lines, isNode, b, bLine);
      NodesBetween(lines, isNode, bLine + 1, aLine);
    }
  }

  lemma RequestInRange(ind: seq<int>, lineOf: seq<Option<nat>>, p: nat, c: nat, e: nat)
    requires Connectable(ind, lineOf, p, c, e)
    ensures p < |ind| && c < e <= |ind| == |lineOf| && IsSubtree(ind, c, e)
    ensures lineOf[c].Some? && lineOf[e - 1].Some? && lineOf[p].Some?
  {
  }

  lemma BlockLocated(lines: seq<string>, isNode: string -> bool, p: nat, c: nat, e: nat,
                     pLine: nat, from: nat, last: nat)
    requires c < e && (p < c || e <= p)
    requires LineIs(lines, isNode, p, pLine) && LineIs(lines, isNode, c, from) && LineIs(lines, isNode, e - 1, last)
    ensures Located(lines, isNode, p, c, e, pLine, from, last + 1)
  {
    LinesInOrder(lines, isNode, c, e - 1, from, last);
    NodesUpTo(lines, isNode, e - 1, last);
    if p < c {
      LinesInOrder(lines, isNode, p, c, pLine, from);
    } else {
      LinesInOrder(lines, isNode, e - 1, p, last, pLine);
    }
  }

  lemma RequestLocated(d: Document, isNode: string -> bool, p: nat, c: nat, e: nat)
    requires Parsed(d, isNode) && Connectable(Tree(d.lines, isNode), d.lineOf, p, c, e)
    ensures p < c || e <= p
    ensures Located(d.lines, isNode, p, c, e, d.lineOf[p].value, d.lineOf[c].value, d.lineOf[e - 1].value + 1)
  {
    hide NodesOf, Indents, Depth, Located, NodesRead;
    SubtreeIsLevelRun(Tree(d.lines, isNode), c, e);
    LevelRunIsSubtree(Tree(d.lines, isNode), c, e);
    BlockLocated(d.lines, isNode, p, c, e, d.lineOf[p].value, d.lineOf[c].value, d.lineOf[e - 1].value);
  }

  /** The lines `from..to` moved behind line `pLine` and shifted. */
  function Relocated(lines: seq<string>, pLine: nat, from: nat, to: nat, delta: int): seq<string>
    requires from < to <= |lines| && pLine < |lines| && (pLine < from || to <= pLine)
  {
    Spliced(lines, pLine, from, to, ReindentAll(lines[from..to], delta))
  }

  /** `out` is the text with the block moved behind the parent's line and shifted by the level difference. */
  ghost predicate IsReparented(d: Document, p: nat, c: nat, e: nat, out: seq<string>) {
    && p < |d.nodes| && c < e <= |d.nodes| == |d.lineOf|
    && d.lineOf[p].Some? && d.lineOf[c].Some? && d.lineOf[e - 1].Some?
    && IsRelocated(d.lines, d.lineOf[p].value, d.lineOf[c].value, d.lineOf[e - 1].value + 1, LevelShift(d, p, c), out)
  }

  ghost predicate IsRelocated(lines: seq<string>, pLine: nat, from: nat, to: nat, delta: int, out: seq<string>) {
    && from < to <= |lines| && pLine < |lines| && (pLine < from || to <= pLine)
    && out == Relocated(lines, pLine, from, to, delta)
  }

  lemma SubtreeIsLevelRun(ind: seq<int>, c: nat, e: nat)
    requires IsSubtree(ind, c, e)
    ensures IsSubtree(Depths(ind), c, e)
  {
    var lev := Depths(ind);
    forall x | c < x < e ensures lev[x] > lev[c] { RunIsDeeper(ind, c, x); }
    if e < |ind| && lev[e] > lev[c] {
      RunIsUnder(ind, c, e);
      UnderRuns(ind, c, e);
    }
  }

  lemma SpliceBySteps(v: seq<string>, p: nat, c: nat, e: nat, block: seq<string>)
    requires c < e <= |v| && p < |v| && (p < c || e <= p)
    ensures var cut := v[..c] + v[e..];
            var at := (if p > e - 1 then p - (e - c) else p) + 1;
            0 <= at <= |cut| && Spliced(v, p, c, e, block) == cut[..at] + block + cut[at..]
  {
    var cut := v[..c] + v[e..];
    if p < c {
      assert cut[..p + 1] == v[..p + 1] && cut[p + 1..] == v[p + 1..c] + v[e..];
      Associates(v[..p + 1] + block, v[p + 1..c], v[e..]);
    } else {
      var at := p - (e - c) + 1;
      assert cut[..at] == v[..c] + v[e..p + 1] && cut[at..] == v[p + 1..];
    }
  }

  /** The two splices on the array of lines. */
  method MoveLines(text: seq<string>, parentLine: nat, blockStart: nat, blockEnd: nat, delta: int)
    returns (lines: seq<string>)
    requires blockStart <= blockEnd < |text| && parentLine < |text| &&
             (parentLine < blockStart || blockEnd < parentLine)
    ensures IsRelocated(text, parentLine, blockStart, blockEnd + 1, delta, lines)
  {
    var block := ReindentAll(text[blockStart..blockEnd + 1], delta);
    var blockLen := blockEnd - blockStart + 1;
    SpliceBySteps(text, parentLine, blockStart, blockEnd + 1, block);
    lines := text[..blockStart] + text[blockStart + blockLen..];
    var insertAt := (if parentLine > blockEnd then parentLine - blockLen else parentLine) + 1;
    lines := lines[..insertAt] + block + lines[insertAt..];
  }

  /** The subtree ends where the level is no longer greater. */
  method SubtreeEnd(nodes: seq<Node>, ghost ind: seq<int>, c: nat) returns (cEnd: nat)
    requires NodesRead(nodes, ind) && c < |nodes|
    ensures IsSubtree(ind, c, cEnd)
    ensures forall x :: 0 <= x < |ind| ==> (Under(ind, c, x) <==> c <= x < cEnd)
  {
    cEnd := c + 1;
    while cEnd < |nodes| && nodes[cEnd].level > nodes[c].level
      invariant c < cEnd <= |nodes|
      invariant forall x :: c < x < cEnd ==> nodes[x].level > nodes[c].level
    {
      cEnd := cEnd + 1;
    }
    assert IsSubtree(Depths(ind), c, cEnd);
    LevelRunIsSubtree(ind, c, cEnd);
  }

  lemma OnlyThatEnd(ind: seq<int>, lineOf: seq<Option<nat>>, p: nat, c: nat, cEnd: nat)
    requires IsSubtree(ind, c, cEnd)
    ensures forall e :: Connectable(ind, lineOf, p, c, e) ==> e == cEnd
  {
    forall e | Connectable(ind, lineOf, p, c, e) ensures e == cEnd { SubtreeEndIsUnique(ind, c, e, cEnd); }
  }

  /** Bails out of every request that is not a re-parenting, and otherwise finds the end of the subtree by level. */
  method Request(nodes: seq<Node>, lineOf: seq<Option<nat>>, ghost ind: seq<int>, p: nat, c: nat)
    returns (r: Option<nat>)
    requires NodesRead(nodes, ind) && |lineOf| == |nodes|
    ensures r.Some? ==> Connectable(ind, lineOf, p, c, r.value)
    ensures forall e: nat :: Connectable(ind, lineOf, p, c, e) ==> r == Some(e)
  {
    if p >= |nodes| || c >= |nodes| { return None; }
    if nodes[c].parent == None || c == p || nodes[c].parent == Some(p) { return None; }
    var cEnd := SubtreeEnd(nodes, ind, c);
    OnlyThatEnd(ind, lineOf, p, c, cEnd);
    if p >= c && p < cEnd { return None; }
    if lineOf[c].None? || lineOf[cEnd - 1].None? || lineOf[p].None? { return None; }
    return Some(cEnd);
  }

  method Reparent(d: Document, ghost isNode: string -> bool, p: nat, c: nat, cEnd: nat) returns (out: seq<string>)
    requires Parsed(d, isNode) && Connectable(Tree(d.lines, isNode), d.lineOf, p, c, cEnd)
    ensures IsReparented(d, p, c, cEnd, out)
  {
    hide NodesOf, Indents, Connectable, Depth, Under, IsSubtree, NodesRead, SpansRead;
    RequestLocated(d, isNode, p, c, cEnd);
    RequestInRange(Tree(d.lines, isNode), d.lineOf, p, c, cEnd);
    var parentLine, blockStart, blockEnd := d.lineOf[p].value, d.lineOf[c].value, d.lineOf[cEnd - 1].value;
    out := MoveLines(d.lines, parentLine, blockStart, blockEnd, LevelShift(d, p, c));
  }

  lemma ParsedParts(d: Document, isNode: string -> bool)
    requires Parsed(d, isNode)
    ensures |d.lineOf| == |d.nodes| && NodesRead(d.nodes, Tree(d.lines, isNode))
  {
  }

  /** The whole gesture: nothing changes unless the request is a re-parenting; then the lines are moved and shifted. */
  method ConnectMindmap(d: Document, ghost isNode: string -> bool, p: nat, c: nat) returns (out: seq<string>)
    requires Parsed(d, isNode)
    ensures (forall e: nat :: !Connectable(Tree(d.lines, isNode), d.lineOf, p, c, e)) ==> out == d.lines
    ensures forall e: nat :: Connectable(Tree(d.lines, isNode), d.lineOf, p, c, e) ==> IsReparented(d, p, c, e, out)
    ensures forall base: int :: TwoSpaced(Tree(d.lines, isNode), base) ==> TwoSpaced(Tree(out, isNode), base)
  {
    hide Parsed, TwoSpaced, Tree, IsReparented, Connectable;
    ParsedParts(d, isNode);
    var end := Request(d.nodes, d.lineOf, Tree(d.lines, isNode), p, c);
    match end
    case None =>
      out := d.lines;
    case Some(cEnd) =>
      out := Reparent(d, isNode, p, c, cEnd);
      forall base: int | TwoSpaced(Tree(d.lines, isNode), base) ensures TwoSpaced(Tree(out, isNode), base) {
        StaysTwoSpaced(d, isNode, p, c, cEnd, base, out);
      }
  }

  // ---- What the edit does to the tree ----

  lemma {:induction false} ReindentAllAt(lines: seq<string>, delta: int, k: nat)
    requires k < |lines|
    ensures |ReindentAll(lines, delta)| == |lines| && ReindentAll(lines, delta)[k] == Reindent(lines[k], delta)
  {
    if k > 0 { ReindentAllAt(lines[1..], delta, k - 1); } else if |lines| > 1 { ReindentAllAt(lines[1..], delta, 0); }
  }

  lemma {:induction false} AllAreNodes(lines: seq<string>, isNode: string -> bool, k: nat)
    requires k < |NodesOf(lines, isNode)|
    ensures isNode(Body(NodesOf(lines, isNode)[k]))
  {
    var first := NodeIn(lines[0], isNode);
    if k >= |first| { AllAreNodes(lines[1..], isNode, k - |first|); }
  }

  /** The nodes of the edited text. */
  lemma NodesAfter(lines: seq<string>, isNode: string -> bool, p: nat, c: nat, e: nat,
                   pLine: nat, from: nat, to: nat, delta: int)
    requires Located(lines, isNode, p, c, e, pLine, from, to)
    ensures p < |NodesOf(lines, isNode)| && e <= |NodesOf(lines, isNode)| && (p < c || e <= p)
    ensures NodesOf(Relocated(lines, pLine, from, to, delta), isNode) ==
            Spliced(NodesOf(lines, isNode), p, c, e, ReindentAll(NodesOf(lines, isNode)[c..e], delta))
  {
    SplicedNodes(lines, isNode, p, c, e, pLine, from, to, ReindentAll(lines[from..to], delta));
    NodesOfReindented(lines[from..to], delta, isNode);
    NodesBetween(lines, isNode, from, to);
  }

  function Clamped(v: int): int { if v < 0 then 0 else v }

  lemma SplicedNode(nodes: seq<string>, p: nat, c: nat, e: nat, delta: int, x: nat)
    requires c < e <= |nodes| && p < |nodes| && (p < c || e <= p) && x < |nodes|
    requires Body(nodes[x]) != ""
    ensures |ReindentAll(nodes[c..e], delta)| == e - c
    ensures |Spliced(nodes, p, c, e, ReindentAll(nodes[c..e], delta))| == |nodes| && 0 <= Place(p, c, e, x) < |nodes|
    ensures Body(Spliced(nodes, p, c, e, ReindentAll(nodes[c..e], delta))[Place(p, c, e, x)]) == Body(nodes[x])
    ensures Lead(Spliced(nodes, p, c, e, ReindentAll(nodes[c..e], delta))[Place(p, c, e, x)]) ==
            if c <= x < e then Clamped(Lead(nodes[x]) + delta) else Lead(nodes[x])
  {
    hide Spliced, Place, ReindentAll, Reindent, Lead, Body;
    ReindentAllAt(nodes[c..e], delta, 0);
    PlaceInRange(nodes, p, c, e, ReindentAll(nodes[c..e], delta), x);
    if c <= x < e {
      ReindentAllAt(nodes[c..e], delta, x - c);
      assert nodes[c..e][x - c] == nodes[x];
      ReindentShifts(nodes[x], delta);
    }
  }

  /** Where each node goes, its text, and its new indentation. */
  lemma NodeAfter(lines: seq<string>, isNode: string -> bool, p: nat, c: nat, e: nat,
                  pLine: nat, from: nat, to: nat, delta: int, x: nat)
    requires Located(lines, isNode, p, c, e, pLine, from, to) && !isNode("") && x < |NodesOf(lines, isNode)|
    ensures p < |NodesOf(lines, isNode)| && e <= |NodesOf(lines, isNode)| && (p < c || e <= p)
    ensures |NodesOf(Relocated(lines, pLine, from, to, delta), isNode)| == |NodesOf(lines, isNode)|
    ensures 0 <= Place(p, c, e, x) < |NodesOf(lines, isNode)|
    ensures Body(NodesOf(Relocated(lines, pLine, from, to, delta), isNode)[Place(p, c, e, x)]) ==
            Body(NodesOf(lines, isNode)[x])
    ensures Tree(Relocated(lines, pLine, from, to, delta), isNode)[Place(p, c, e, x)] ==
            if c <= x < e then Clamped(Tree(lines, isNode)[x] + delta) else Tree(lines, isNode)[x]
  {
    hide NodesOf, Lead, Body, Spliced, Place, ReindentAll, LineIs;
    NodesAfter(lines, isNode, p, c, e, pLine, from, to, delta);
    AllAreNodes(lines, isNode, x);
    SplicedNode(NodesOf(lines, isNode), p, c, e, delta, x);
  }

  lemma UnclampedTree(lines: seq<string>, isNode: string -> bool, p: nat, c: nat, e: nat,
                      pLine: nat, from: nat, to: nat, delta: int)
    requires Located(lines, isNode, p, c, e, pLine, from, to) && !isNode("")
    requires e <= |NodesOf(lines, isNode)| && IsSubtree(Tree(lines, isNode), c, e)
    requires Tree(lines, isNode)[c] + delta >= 0
    ensures p < |NodesOf(lines, isNode)| && (p < c || e <= p)
    ensures Tree(Relocated(lines, pLine, from, to, delta), isNode) == Moved(Tree(lines, isNode), p, c, e, delta)
  {
    hide Place, Moved, NodesOf, Relocated, Lead;
    NodeAfter(lines, isNode, p, c, e, pLine, from, to, delta, c);
    var ind, after := Tree(lines, isNode), Tree(Relocated(lines, pLine, from, to, delta), isNode);
    MovedAt(ind, p, c, e, delta, c);
    forall m: nat | m < |ind| ensures after[m] == Moved(ind, p, c, e, delta)[m] {
      var x := PlaceIsOnto(p, c, e, |ind|, m);
      NodeAfter(lines, isNode, p, c, e, pLine, from, to, delta, x);
      MovedAt(ind, p, c, e, delta, x);
    }
  }

  lemma RelocatedTree(lines: seq<string>, isNode: string -> bool, p: nat, c: nat, e: nat,
                      pLine: nat, from: nat, to: nat, delta: int, out: seq<string>)
    requires Located(lines, isNode, p, c, e, pLine, from, to) && !isNode("")
    requires p < |NodesOf(lines, isNode)| && e <= |NodesOf(lines, isNode)| && IsSubtree(Tree(lines, isNode), c, e)
    requires IsRelocated(lines, pLine, from, to, delta, out)
    ensures OneEdgeMoved(Tree(lines, isNode), Tree(out, isNode), p, c, e) <==> Fits(Tree(lines, isNode), p, c, delta)
  {
    var ind, after := Tree(lines, isNode), Tree(out, isNode);
    if ind[c] + delta >= 0 {
      UnclampedTree(lines, isNode, p, c, e, pLine, from, to, delta);
      MoveChangesOneEdge(ind, p, c, e, delta);
    } else {
      NodeAfter(lines, isNode, p, c, e, pLine, from, to, delta, c);
      NodeAfter(lines, isNode, p, c, e, pLine, from, to, delta, p);
      ShallowRootMisplaced(ind, after, p, c, e);
    }
  }

  lemma RelocatedTexts(lines: seq<string>, isNode: string -> bool, p: nat, c: nat, e: nat,
                       pLine: nat, from: nat, to: nat, delta: int, out: seq<string>, x: nat)
    requires Located(lines, isNode, p, c, e, pLine, from, to) && !isNode("")
    requires x < |NodesOf(lines, isNode)| && IsRelocated(lines, pLine, from, to, delta, out)
    ensures |NodesOf(out, isNode)| == |NodesOf(lines, isNode)| && 0 <= Place(p, c, e, x) < |NodesOf(out, isNode)|
    ensures Body(NodesOf(out, isNode)[Place(p, c, e, x)]) == Body(NodesOf(lines, isNode)[x])
  {
    NodeAfter(lines, isNode, p, c, e, pLine, from, to, delta, x);
  }

  lemma ShallowRootMisplaced(before: seq<int>, after: seq<int>, p: nat, c: nat, e: nat)
    requires c < e <= |before| && p < |before| && (p < c || e <= p) && |after| == |before|
    requires 0 <= Place(p, c, e, c) < |after| && 0 <= Place(p, c, e, p) < |after|
    requires after[Place(p, c, e, c)] <= after[Place(p, c, e, p)]
    ensures !OneEdgeMoved(before, after, p, c, e)
  {
    assert NewParent(after, p, c, e, c) != Wanted(before, p, c, e, c);
  }

  /** Reading the edited text gives the old tree with just `c`'s subtree hung under `p`, exactly when the shifted root
  lands deeper than `p` and no shallower than the children `p` already has. */
  lemma ConnectIsTreeEdit(d: Document, isNode: string -> bool, p: nat, c: nat, e: nat, out: seq<string>)
    requires Parsed(d, isNode) && Connectable(Tree(d.lines, isNode), d.lineOf, p, c, e) && IsReparented(d, p, c, e, out)
    ensures OneEdgeMoved(Tree(d.lines, isNode), Tree(out, isNode), p, c, e) <==>
            Fits(Tree(d.lines, isNode), p, c, LevelShift(d, p, c))
  {
    hide NodesOf, Indents, Connectable, Depth, Under, Located, SpansRead, OneEdgeMoved, Fits, Relocated;
    RequestLocated(d, isNode, p, c, e);
    RequestInRange(Tree(d.lines, isNode), d.lineOf, p, c, e);
    RelocatedTree(d.lines, isNode, p, c, e, d.lineOf[p].value, d.lineOf[c].value, d.lineOf[e - 1].value + 1,
                  LevelShift(d, p, c), out);
  }

  /** Whatever the indentation, every node keeps its text. */
  lemma ConnectKeepsTexts(d: Document, isNode: string -> bool, p: nat, c: nat, e: nat, out: seq<string>, x: nat)
    requires Parsed(d, isNode) && Connectable(Tree(d.lines, isNode), d.lineOf, p, c, e) && IsReparented(d, p, c, e, out)
    requires x < |NodesOf(d.lines, isNode)|
    ensures |NodesOf(out, isNode)| == |NodesOf(d.lines, isNode)| && 0 <= Place(p, c, e, x) < |NodesOf(out, isNode)|
    ensures Body(NodesOf(out, isNode)[Place(p, c, e, x)]) == Body(NodesOf(d.lines, isNode)[x])
  {
    hide NodesOf, Indents, Connectable, Depth, Under, Located, NodesRead, SpansRead, Relocated;
    RequestLocated(d, isNode, p, c, e);
    RequestInRange(Tree(d.lines, isNode), d.lineOf, p, c, e);
    RelocatedTexts(d.lines, isNode, p, c, e, d.lineOf[p].value, d.lineOf[c].value, d.lineOf[e - 1].value + 1,
                   LevelShift(d, p, c), out, x);
  }

  /** Every level is two columns deeper than the one above it. */
  ghost predicate TwoSpaced(ind: seq<int>, base: int) {
    forall k :: 0 <= k < |ind| ==> ind[k] == base + 2 * Depth(ind, k)
  }

  lemma TwoSpacedFits(ind: seq<int>, p: nat, c: nat, base: int)
    requires p < |ind| && c < |ind| && TwoSpaced(ind, base)
    ensures Fits(ind, p, c, (Depth(ind, p) + 1 - Depth(ind, c)) * INDENT_STEP)
  {
    forall x | 0 <= x < |ind| && x != c && Parent(ind, x) == Some(p) ensures ind[x] <= ind[p] + INDENT_STEP {
      assert Depth(ind, x) == 1 + Depth(ind, p);
    }
  }

  /** With two-space indents the edit is always the tree edit. */
  lemma TwoSpacedConnects(d: Document, isNode: string -> bool, p: nat, c: nat, e: nat, base: int, out: seq<string>)
    requires Parsed(d, isNode) && Connectable(Tree(d.lines, isNode), d.lineOf, p, c, e) && IsReparented(d, p, c, e, out)
    requires TwoSpaced(Tree(d.lines, isNode), base)
    ensures OneEdgeMoved(Tree(d.lines, isNode), Tree(out, isNode), p, c, e)
  {
    ConnectIsTreeEdit(d, isNode, p, c, e, out);
    TwoSpacedFits(Tree(d.lines, isNode), p, c, base);
  }

  /** Moved by the two columns a level it takes, every node stands two columns below its new parent. */
  lemma MovedTwoSpaced(ind: seq<int>, p: nat, c: nat, e: nat, base: int, delta: int)
    requires IsSubtree(ind, c, e) && p < |ind| && (p < c || e <= p) && TwoSpaced(ind, base)
    requires delta == 2 * (Depth(ind, p) + 1 - Depth(ind, c))
    requires OneEdgeMoved(ind, Moved(ind, p, c, e, delta), p, c, e)
    ensures TwoSpaced(Moved(ind, p, c, e, delta), base)
  {
    hide Moved, Place, OneEdgeMoved, Depth;
    var after := Moved(ind, p, c, e, delta);
    MovedAt(ind, p, c, e, delta, p);
    forall m: nat | m < |after| ensures after[m] == base + 2 * Depth(after, m) {
      var x := PlaceIsOnto(p, c, e, |ind|, m);
      MovedAt(ind, p, c, e, delta, x);
      DepthsFollow(ind, after, p, c, e, x);
    }
  }

  lemma BaseIsIndent(lines: seq<string>, isNode: string -> bool, base: int)
    requires TwoSpaced(Tree(lines, isNode), base) && |Tree(lines, isNode)| > 0
    ensures base >= 0
  {
    assert Depth(Tree(lines, isNode), 0) == 0;
  }

  lemma ShiftIs(d: Document, isNode: string -> bool, p: nat, c: nat)
    requires Parsed(d, isNode) && p < |d.nodes| && c < |d.nodes|
    ensures |Tree(d.lines, isNode)| == |d.nodes|
    ensures LevelShift(d, p, c) == 2 * (Depth(Tree(d.lines, isNode), p) + 1 - Depth(Tree(d.lines, isNode), c))
  {
    hide Depth, Parent;
  }

  lemma TwoSpacedStep(lines: seq<string>, isNode: string -> bool, p: nat, c: nat, e: nat, base: int, pLine: nat,
                      from: nat, to: nat, delta: int, out: seq<string>)
    requires Located(lines, isNode, p, c, e, pLine, from, to) && !isNode("") && TwoSpaced(Tree(lines, isNode), base)
    requires p < |Tree(lines, isNode)| && c < e <= |Tree(lines, isNode)| && IsSubtree(Tree(lines, isNode), c, e)
    requires delta == 2 * (Depth(Tree(lines, isNode), p) + 1 - Depth(Tree(lines, isNode), c))
    requires IsRelocated(lines, pLine, from, to, delta, out)
    requires OneEdgeMoved(Tree(lines, isNode), Tree(out, isNode), p, c, e)
    ensures TwoSpaced(Tree(out, isNode), base)
  {
    hide NodesOf, Indents, Depth, Located, OneEdgeMoved, Relocated;
    BaseIsIndent(lines, isNode, base);
    assert Tree(lines, isNode)[c] + delta == base + 2 * (Depth(Tree(lines, isNode), p) + 1);
    UnclampedTree(lines, isNode, p, c, e, pLine, from, to, delta);
    MovedTwoSpaced(Tree(lines, isNode), p, c, e, base, delta);
  }

  /** What an edit comes to on the lines. */
  lemma EditOnLines(d: Document, isNode: string -> bool, p: nat, c: nat, e: nat, out: seq<string>)
    requires Parsed(d, isNode) && Connectable(Tree(d.lines, isNode), d.lineOf, p, c, e) && IsReparented(d, p, c, e, out)
    ensures !isNode("") && p < |Tree(d.lines, isNode)| && c < e <= |Tree(d.lines, isNode)| == |d.lineOf|
    ensures IsSubtree(Tree(d.lines, isNode), c, e)
    ensures d.lineOf[p].Some? && d.lineOf[c].Some? && d.lineOf[e - 1].Some?
    ensures Located(d.lines, isNode, p, c, e, d.lineOf[p].value, d.lineOf[c].value, d.lineOf[e - 1].value + 1)
    ensures IsRelocated(d.lines, d.lineOf[p].value, d.lineOf[c].value, d.lineOf[e - 1].value + 1,
                        2 * (Depth(Tree(d.lines, isNode), p) + 1 - Depth(Tree(d.lines, isNode), c)), out)
  {
    hide NodesOf, Indents, Connectable, Depth, Under, Located, SpansRead, Relocated, IsSubtree, NodesRead;
    RequestLocated(d, isNode, p, c, e);
    RequestInRange(Tree(d.lines, isNode), d.lineOf, p, c, e);
    ShiftIs(d, isNode, p, c);
  }

  /** A text whose nodes stand two columns a level apart is still one after the edit, from the same first column. */
  lemma StaysTwoSpaced(d: Document, isNode: string -> bool, p: nat, c: nat, e: nat, base: int, out: seq<string>)
    requires Parsed(d, isNode) && Connectable(Tree(d.lines, isNode), d.lineOf, p, c, e) && IsReparented(d, p, c, e, out)
    requires TwoSpaced(Tree(d.lines, isNode), base)
    ensures TwoSpaced(Tree(out, isNode), base)
  {
    hide *;
    EditOnLines(d, isNode, p, c, e, out);
    TwoSpacedConnects(d, isNode, p, c, e, base, out);
    TwoSpacedStep(d.lines, isNode, p, c, e, base, d.lineOf[p].value, d.lineOf[c].value, d.lineOf[e - 1].value + 1,
                  2 * (Depth(Tree(d.lines, isNode), p) + 1 - Depth(Tree(d.lines, isNode), c)), out);
  }

  /** `out` is what the gesture makes of a text, whatever is asked for. */
  ghost predicate IsConnected(lines: seq<string>, isNode: string -> bool, out: seq<string>) {
    out == lines ||
    exists d: Document, p: nat, c: nat, e: nat ::
      d.lines == lines && Parsed(d, isNode) && Connectable(Tree(d.lines, isNode), d.lineOf, p, c, e) &&
      IsReparented(d, p, c, e, out)
  }

  /** Texts with two-space indents stay so through any sequence of gestures, so that each of them is a tree edit. */
  lemma {:induction false} AlwaysTwoSpaced(texts: seq<seq<string>>, isNode: string -> bool, base: int)
    requires texts != [] && TwoSpaced(Tree(texts[0], isNode), base)
    requires forall k :: 0 <= k < |texts| - 1 ==> IsConnected(texts[k], isNode, texts[k + 1])
    ensures forall k :: 0 <= k < |texts| ==> TwoSpaced(Tree(texts[k], isNode), base)
  {
    if |texts| > 1 {
      hide TwoSpaced, Parsed, Connectable, IsReparented, Tree;
      var n := |texts| - 1;
      AlwaysTwoSpaced(texts[..n], isNode, base);
      assert texts[..n][n - 1] == texts[n - 1] && IsConnected(texts[n - 1], isNode, texts[n]);
      if texts[n] != texts[n - 1] {
        var d: Document, p: nat, c: nat, e: nat :| d.lines == texts[n - 1] && Parsed(d, isNode) &&
          Connectable(Tree(d.lines, isNode), d.lineOf, p, c, e) && IsReparented(d, p, c, e, texts[n]);
        StaysTwoSpaced(d, isNode, p, c, e, base, texts[n]);
      }
      forall k | 0 <= k < |texts| ensures TwoSpaced(Tree(texts[k], isNode), base) {
        if k < n { assert texts[..n][k] == texts[k]; }
      }
    }
  }

  /** With four-space indents it need not be: hanging the last of these nodes under the third makes it a sibling of the
  third instead. */
  lemma FourSpacesMisplace(ind: seq<int>)
    requires ind == [0, 4, 8, 4]
    ensures IsSubtree(ind, 3, 4) && Depth(ind, 2) == 2 && Depth(ind, 3) == 1
    ensures Moved(ind, 2, 3, 4, (2 + 1 - 1) * INDENT_STEP) == [0, 4, 8, 8]
    ensures NewParent([0, 4, 8, 8], 2, 3, 4, 3) == Some(1)
    ensures !OneEdgeMoved(ind, [0, 4, 8, 8], 2, 3, 4)
  {
    ParentIsUnique(ind, 1, Some(0));
    ParentIsUnique(ind, 2, Some(1));
    ParentIsUnique(ind, 3, Some(0));
    assert Depth(ind, 0) == 0 && Depth(ind, 1) == 1;
    ParentIsUnique([0, 4, 8, 8], 3, Some(1));
    MoveChangesOneEdge(ind, 2, 3, 4, 4);
  }

  lemma SpacedLine(n: nat, c: char, delta: int)
    requires !IsSpace(c)
    ensures Lead(Spaces(n) + [c]) == n && Body(Spaces(n) + [c]) == [c]
    ensures n + delta >= 0 ==> Reindent(Spaces(n) + [c], delta) == Spaces(n + delta) + [c]
  {
    LeadOfPadded(n, [c]);
  }

  function FourSpaced(last: nat): seq<string> {
    ["mindmap", Spaces(0) + "r", Spaces(4) + "a", Spaces(8) + "b", Spaces(last) + "c"]
  }

  ghost predicate ReadsLetters(isNode: string -> bool) {
    isNode("r") && isNode("a") && isNode("b") && isNode("c") && !isNode("mindmap") && !isNode("")
  }

  lemma {:induction false} AllNodes(lines: seq<string>, isNode: string -> bool)
    requires forall k :: 0 <= k < |lines| ==> isNode(Body(lines[k]))
    ensures NodesOf(lines, isNode) == lines
  {
    if lines != [] { AllNodes(lines[1..], isNode); }
  }

  lemma FourSpacedLines(last: nat)
    ensures var nodes := FourSpaced(last)[1..];
            && |nodes| == 4 && Lead(nodes[0]) == 0 && Lead(nodes[1]) == 4 && Lead(nodes[2]) == 8 &&
                Lead(nodes[3]) == last
            && Body(nodes[0]) == "r" && Body(nodes[1]) == "a" && Body(nodes[2]) == "b" && Body(nodes[3]) == "c"
  {
    SpacedLine(0, 'r', 0);
    SpacedLine(4, 'a', 0);
    SpacedLine(8, 'b', 0);
    SpacedLine(last, 'c', 0);
    hide Lead, Body, Spaces;
  }

  lemma FourSpacedNodes(last: nat, isNode: string -> bool)
    requires ReadsLetters(isNode)
    ensures NodesOf(FourSpaced(last), isNode) == FourSpaced(last)[1..]
  {
    var lines := FourSpaced(last);
    FourSpacedLines(last);
    assert Lead("mindmap") == 0 && Body("mindmap") == "mindmap";
    assert NodesOf(["mindmap"], isNode) == [];
    hide Lead, Body, Spaces, NodesOf;
    AllNodes(lines[1..], isNode);
    NodesOfConcat(["mindmap"], lines[1..], isNode);
    assert lines == ["mindmap"] + lines[1..];
  }

  lemma FourSpacedTree(last: nat, isNode: string -> bool)
    requires ReadsLetters(isNode)
    ensures Tree(FourSpaced(last), isNode) == [0, 4, 8, last]
  {
    hide Lead, Body, Spaces, NodesOf, Indents, ReadsLetters;
    FourSpacedNodes(last, isNode);
    FourSpacedLines(last);
  }

  /** The same on a text: the whole gesture, from these lines to those. */
  lemma FourSpacesMisplaceText(d: Document, isNode: string -> bool, out: seq<string>)
    requires ReadsLetters(isNode) && d.lines == FourSpaced(4) && Parsed(d, isNode)
    requires d.lineOf == [Some(1), Some(2), Some(3), Some(4)]
    requires IsReparented(d, 2, 3, 4, out)
    ensures Connectable(Tree(d.lines, isNode), d.lineOf, 2, 3, 4)
    ensures out == FourSpaced(8) && !OneEdgeMoved(Tree(d.lines, isNode), Tree(out, isNode), 2, 3, 4)
  {
    hide Spaces, ReindentAll, Lead, Body, Reindent, NodesOf, Indents, OneEdgeMoved, SpansRead;
    var ind := Tree(d.lines, isNode);
    FourSpacedTree(4, isNode);
    FourSpacedTree(8, isNode);
    FourSpacesMisplace(ind);
    ParentIsUnique(ind, 1, Some(0));
    ParentIsUnique(ind, 2, Some(1));
    ParentIsUnique(ind, 3, Some(0));
    assert !Under(ind, 3, 0) && !Under(ind, 3, 1);
    assert LevelShift(d, 2, 3) == 4;
    MovedText(d.lines, out);
  }

  lemma MovedText(lines: seq<string>, out: seq<string>)
    requires lines == FourSpaced(4) && IsRelocated(lines, 3, 4, 5, 4, out)
    ensures out == FourSpaced(8)
  {
    SpacedLine(4, 'c', 4);
    hide Spaces, Reindent;
    assert lines[4..5] == [lines[4]] && [lines[4]][1..] == [];
    assert ReindentAll(lines[4..5], 4) == [Reindent(lines[4], 4)];
  }
}
