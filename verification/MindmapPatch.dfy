/** Re-parenting a mindmap node by editing the text: moving its lines and re-indenting them. */
module MindmapPatch {
  import opened Wrappers
  import opened MindmapTree
  import opened MindmapMove

  const INDENT_STEP := 2

  // ---- Lines ----

  predicate IsSpace(c: char) {
    c == ' ' || '\U{09}' <= c <= '\U{0D}' || c == '\U{A0}' || c == '\U{1680}' || '\U{2000}' <= c <= '\U{200A}' ||
    c == '\U{2028}' || c == '\U{2029}' || c == '\U{202F}' || c == '\U{205F}' || c == '\U{3000}' || c == '\U{FEFF}'
  }

  function Lead(line: string): (n: nat)
    ensures n <= |line|
  {
    if line != "" && IsSpace(line[0]) then 1 + Lead(line[1..]) else 0
  }

  function Body(line: string): string { line[Lead(line)..] }

  function Spaces(n: nat): (r: string)
    ensures |r| == n && forall k :: 0 <= k < n ==> r[k] == ' '
  {
    if n == 0 then "" else " " + Spaces(n - 1)
  }

  /** Shifts a line's indentation, never below zero; blank lines stay. */
  function Reindent(line: string, delta: int): string {
    if Body(line) == "" then line
    else Spaces(if Lead(line) + delta < 0 then 0 else Lead(line) + delta) + Body(line)
  }

  function ReindentAll(lines: seq<string>, delta: int): seq<string> {
    if lines == [] then [] else [Reindent(lines[0], delta)] + ReindentAll(lines[1..], delta)
  }

  lemma {:induction false} BodyStartsSolid(line: string)
    ensures Body(line) != "" ==> !IsSpace(Body(line)[0])
  {
    if line != "" && IsSpace(line[0]) {
      BodyStartsSolid(line[1..]);
      assert Body(line) == Body(line[1..]);
    }
  }

  lemma {:induction false} LeadOfPadded(n: nat, body: string)
    requires body != "" ==> !IsSpace(body[0])
    ensures Lead(Spaces(n) + body) == n && Body(Spaces(n) + body) == body
  {
    if n == 0 {
      assert Spaces(0) + body == body;
    } else {
      LeadOfPadded(n - 1, body);
      assert (Spaces(n) + body)[1..] == Spaces(n - 1) + body;
    }
  }

  lemma ReindentShifts(line: string, delta: int)
    requires Body(line) != ""
    ensures Body(Reindent(line, delta)) == Body(line)
    ensures Lead(Reindent(line, delta)) == if Lead(line) + delta < 0 then 0 else Lead(line) + delta
  {
    BodyStartsSolid(line);
    LeadOfPadded(if Lead(line) + delta < 0 then 0 else Lead(line) + delta, Body(line));
  }

  lemma ReindentKeepsBody(line: string, delta: int)
    ensures Body(Reindent(line, delta)) == Body(line)
  {
    if Body(line) != "" { ReindentShifts(line, delta); }
  }

  // ---- Reading the nodes of a text ----

  // Which lines are nodes, as opposed to the header, directives and blank lines, is decided by `isNode` on the body.

  function NodeIn(line: string, isNode: string -> bool): seq<string> {
    if isNode(Body(line)) then [line] else []
  }

  function NodesOf(lines: seq<string>, isNode: string -> bool): seq<string> {
    if lines == [] then [] else NodeIn(lines[0], isNode) + NodesOf(lines[1..], isNode)
  }

  function Indents(nodes: seq<string>): (r: seq<int>)
    ensures |r| == |nodes| && forall k :: 0 <= k < |nodes| ==> r[k] == Lead(nodes[k])
  {
    if nodes == [] then [] else [Lead(nodes[0])] + Indents(nodes[1..])
  }

  lemma {:induction false} NodesOfConcat(a: seq<string>, b: seq<string>, isNode: string -> bool)
    ensures NodesOf(a + b, isNode) == NodesOf(a, isNode) + NodesOf(b, isNode)
  {
    if a == [] {
      assert a + b == b;
    } else {
      NodesOfConcat(a[1..], b, isNode);
      assert (a + b)[0] == a[0] && (a + b)[1..] == a[1..] + b;
      Associates(NodeIn(a[0], isNode), NodesOf(a[1..], isNode), NodesOf(b, isNode));
    }
  }

  lemma {:induction false} ReindentAllConcat(a: seq<string>, b: seq<string>, delta: int)
    ensures ReindentAll(a + b, delta) == ReindentAll(a, delta) + ReindentAll(b, delta)
  {
    if a == [] {
      assert a + b == b;
    } else {
      ReindentAllConcat(a[1..], b, delta);
      assert (a + b)[0] == a[0] && (a + b)[1..] == a[1..] + b;
      Associates([Reindent(a[0], delta)], ReindentAll(a[1..], delta), ReindentAll(b, delta));
    }
  }

  lemma {:induction false} NodesOfReindented(lines: seq<string>, delta: int, isNode: string -> bool)
    ensures NodesOf(ReindentAll(lines, delta), isNode) == ReindentAll(NodesOf(lines, isNode), delta)
  {
    if lines != [] {
      NodesOfReindented(lines[1..], delta, isNode);
      ReindentKeepsBody(lines[0], delta);
      assert ReindentAll(lines, delta)[1..] == ReindentAll(lines[1..], delta);
      ReindentAllConcat(NodeIn(lines[0], isNode), NodesOf(lines[1..], isNode), delta);
    }
  }

  /** Line `at` of the text is node number `k`. */
  ghost predicate LineIs(lines: seq<string>, isNode: string -> bool, k: nat, at: nat) {
    at < |lines| && isNode(Body(lines[at])) && |NodesOf(lines[..at], isNode)| == k
  }

  lemma NodesOfThree(a: seq<string>, line: string, b: seq<string>, isNode: string -> bool)
    requires isNode(Body(line))
    ensures NodesOf(a + [line] + b, isNode) == NodesOf(a, isNode) + [line] + NodesOf(b, isNode)
    ensures NodesOf(a + [line], isNode) == NodesOf(a, isNode) + [line]
  {
    NodesOfConcat(a + [line], b, isNode);
    NodesOfConcat(a, [line], isNode);
    assert NodesOf([line], isNode) == [line];
  }

  lemma NodesUpTo(lines: seq<string>, isNode: string -> bool, k: nat, at: nat)
    requires LineIs(lines, isNode, k, at)
    ensures k < |NodesOf(lines, isNode)| && NodesOf(lines, isNode)[k] == lines[at]
    ensures NodesOf(lines[..at], isNode) == NodesOf(lines, isNode)[..k]
    ensures NodesOf(lines[..at + 1], isNode) == NodesOf(lines, isNode)[..k + 1]
    ensures NodesOf(lines[at + 1..], isNode) == NodesOf(lines, isNode)[k + 1..]
  {
    hide NodesOf, Body, Lead;
    NodesOfThree(lines[..at], lines[at], lines[at + 1..], isNode);
    assert lines == lines[..at] + [lines[at]] + lines[at + 1..];
    assert lines[..at + 1] == lines[..at] + [lines[at]];
  }

  lemma NodesBetween(lines: seq<string>, isNode: string -> bool, a: nat, b: nat)
    requires a <= b <= |lines|
    ensures |NodesOf(lines[..a], isNode)| <= |NodesOf(lines[..b], isNode)| <= |NodesOf(lines, isNode)|
    ensures NodesOf(lines[a..b], isNode) ==
            NodesOf(lines, isNode)[|NodesOf(lines[..a], isNode)|..|NodesOf(lines[..b], isNode)|]
    ensures NodesOf(lines[b..], isNode) == NodesOf(lines, isNode)[|NodesOf(lines[..b], isNode)|..]
  {
    NodesOfConcat(lines[..a], lines[a..b], isNode);
    assert lines[..b] == lines[..a] + lines[a..b];
    NodesOfConcat(lines[..b], lines[b..], isNode);
    assert lines == lines[..b] + lines[b..];
  }

  lemma NodesOfFour(a: seq<string>, b: seq<string>, c: seq<string>, d: seq<string>, isNode: string -> bool)
    ensures NodesOf(a + b + c + d, isNode) ==
            NodesOf(a, isNode) + NodesOf(b, isNode) + NodesOf(c, isNode) + NodesOf(d, isNode)
  {
    NodesOfConcat(a + b + c, d, isNode);
    NodesOfConcat(a + b, c, isNode);
    NodesOfConcat(a, b, isNode);
  }

  /** Lines `from..to` are the lines of nodes `c..e`, and line `pLine`, outside them, is node `p`. */
  ghost predicate Located(lines: seq<string>, isNode: string -> bool, p: nat, c: nat, e: nat,
                          pLine: nat, from: nat, to: nat)
  {
    && LineIs(lines, isNode, p, pLine) && LineIs(lines, isNode, c, from)
    && c < e && from < to <= |lines| && |NodesOf(lines[..to], isNode)| == e
    && (pLine < from || to <= pLine)
  }

  lemma LocatedOrder(lines: seq<string>, isNode: string -> bool, p: nat, c: nat, e: nat,
                     pLine: nat, from: nat, to: nat)
    requires Located(lines, isNode, p, c, e, pLine, from, to)
    ensures p < |NodesOf(lines, isNode)| && e <= |NodesOf(lines, isNode)|
    ensures pLine < from ==> p < c
    ensures pLine >= to ==> e <= p
  {
    NodesUpTo(lines, isNode, p, pLine);
    NodesBetween(lines, isNode, from, to);
    if pLine < from {
      NodesBetween(lines, isNode, pLine + 1, from);
    } else {
      NodesBetween(lines, isNode, to, pLine);
    }
  }

  /** Moving lines moves the nodes they hold. */
  lemma SplicedNodes(lines: seq<string>, isNode: string -> bool, p: nat, c: nat, e: nat,
                     pLine: nat, from: nat, to: nat, block: seq<string>)
    requires Located(lines, isNode, p, c, e, pLine, from, to)
    ensures p < |NodesOf(lines, isNode)| && e <= |NodesOf(lines, isNode)| && (p < c || e <= p)
    ensures NodesOf(Spliced(lines, pLine, from, to, block), isNode) ==
            Spliced(NodesOf(lines, isNode), p, c, e, NodesOf(block, isNode))
  {
    hide NodesOf, Body, Lead;
    LocatedOrder(lines, isNode, p, c, e, pLine, from, to);
    NodesUpTo(lines, isNode, p, pLine);
    NodesUpTo(lines, isNode, c, from);
    if pLine < from {
      NodesBetween(lines, isNode, pLine + 1, from);
      NodesBetween(lines, isNode, from, to);
      NodesOfFour(lines[..pLine + 1], block, lines[pLine + 1..from], lines[to..], isNode);
    } else {
      NodesBetween(lines, isNode, to, pLine + 1);
      NodesOfFour(lines[..from], lines[to..pLine + 1], block, lines[pLine + 1..], isNode);
    }
  }
}
