/** Walking up links that lead from an id to at most one other: when the walk ends, and what it passes. */
module Ancestors {
  import opened Wrappers

  /** Where `n` steps up from `id` lead, if there are that many. */
  function Up(up: map<Id, Id>, id: Id, n: nat): Option<Id>
    decreases n
  {
    if n == 0 then Some(id) else if id in up then Up(up, up[id], n - 1) else None
  }

  ghost predicate WalkEnds(up: map<Id, Id>, id: Id) { exists n: nat :: Up(up, id, n).None? }

  ghost predicate AllWalksEnd(up: map<Id, Id>) { forall id :: WalkEnds(up, id) }

  ghost predicate OwnAncestor(up: map<Id, Id>, id: Id) { exists n: nat :: n > 0 && Up(up, id, n) == Some(id) }

  ghost predicate Acyclic(up: map<Id, Id>) { forall id :: !OwnAncestor(up, id) }

  /** The walk from `id` comes past one that is its own ancestor. */
  ghost predicate MeetsCycle(up: map<Id, Id>, id: Id) {
    exists n: nat :: Up(up, id, n).Some? && OwnAncestor(up, Up(up, id, n).value)
  }

  lemma {:induction false} UpAdds(up: map<Id, Id>, id: Id, m: nat, n: nat)
    ensures Up(up, id, m + n) == match Up(up, id, m) case Some(a) => Up(up, a, n) case None => None
    decreases m
  {
    if m > 0 && id in up { UpAdds(up, up[id], m - 1, n); }
  }

  // ---- How many steps a walk takes ----

  lemma {:induction false} LeastEnd(up: map<Id, Id>, id: Id, n: nat) returns (k: nat)
    requires Up(up, id, n).None?
    ensures IsSteps(up, id, k)
  {
    if m: nat :| m < n && Up(up, id, m).None? { k := LeastEnd(up, id, m); } else { k := n; }
  }

  ghost predicate IsSteps(up: map<Id, Id>, id: Id, k: nat) {
    Up(up, id, k).None? && forall m: nat :: m < k ==> Up(up, id, m).Some?
  }

  lemma SomeLeastEnd(up: map<Id, Id>, id: Id)
    requires WalkEnds(up, id)
    ensures exists k: nat :: IsSteps(up, id, k)
  {
    var n: nat :| Up(up, id, n).None?;
    var k := LeastEnd(up, id, n);
  }

  /** The steps until the walk ends. */
  ghost function Steps(up: map<Id, Id>, id: Id): (k: nat)
    requires WalkEnds(up, id)
    ensures IsSteps(up, id, k)
  {
    SomeLeastEnd(up, id);
    var k: nat :| IsSteps(up, id, k);
    k
  }

  lemma ParentIsCloser(up: map<Id, Id>, id: Id)
    requires WalkEnds(up, id) && id in up
    ensures WalkEnds(up, up[id]) && Steps(up, up[id]) < Steps(up, id)
  {
    var k := Steps(up, id);
    assert Up(up, id, k) == Up(up, up[id], k - 1);
  }

  /** What a walk passes, its start included. */
  ghost function Chain(up: map<Id, Id>, id: Id): (r: seq<Id>)
    requires WalkEnds(up, id)
    ensures r != [] && r[0] == id
    decreases Steps(up, id)
  {
    [id] + if id in up then ParentIsCloser(up, id); Chain(up, up[id]) else []
  }

  lemma {:induction false} ChainAt(up: map<Id, Id>, id: Id, k: nat)
    requires WalkEnds(up, id)
    ensures Up(up, id, k) == if k < |Chain(up, id)| then Some(Chain(up, id)[k]) else None
    decreases k
  {
    if k > 0 && id in up {
      ParentIsCloser(up, id);
      ChainAt(up, up[id], k - 1);
    }
  }

  /** From any stop on, the walk goes on as it would have started there. */
  lemma {:induction false} ChainFrom(up: map<Id, Id>, id: Id, k: nat)
    requires WalkEnds(up, id) && k < |Chain(up, id)|
    ensures WalkEnds(up, Chain(up, id)[k]) && Chain(up, Chain(up, id)[k]) == Chain(up, id)[k..]
    decreases k
  {
    if k > 0 {
      ParentIsCloser(up, id);
      ChainFrom(up, up[id], k - 1);
    }
  }

  /** A walk that ends passes nothing twice. */
  lemma ChainIsDistinct(up: map<Id, Id>, id: Id, i: nat, j: nat)
    requires WalkEnds(up, id) && i < j < |Chain(up, id)|
    ensures Chain(up, id)[i] != Chain(up, id)[j]
  {
    ChainFrom(up, id, i);
    ChainFrom(up, id, j);
  }

  // ---- When a walk ends ----

  /** Round a cycle the walk goes on for ever. */
  lemma {:induction false} CycleGoesOn(up: map<Id, Id>, id: Id, round: nat, n: nat)
    requires round > 0 && Up(up, id, round) == Some(id)
    ensures Up(up, id, n).Some?
    decreases n
  {
    if n >= round {
      CycleGoesOn(up, id, round, n - round);
      UpAdds(up, id, round, n - round);
    } else if Up(up, id, n).None? {
      UpAdds(up, id, n, round - n);
    }
  }

  lemma CycleNeverEnds(up: map<Id, Id>, id: Id)
    requires MeetsCycle(up, id)
    ensures !WalkEnds(up, id)
  {
    var m: nat :| Up(up, id, m).Some? && OwnAncestor(up, Up(up, id, m).value);
    var at := Up(up, id, m).value;
    var round: nat :| round > 0 && Up(up, at, round) == Some(at);
    forall n: nat ensures Up(up, id, n).Some? {
      CycleGoesOn(up, at, round, n);
      UpAdds(up, id, m, n);
      UpAdds(up, id, n, m);
    }
  }

  ghost function Walked(up: map<Id, Id>, id: Id, n: nat): (r: seq<Id>)
    requires forall k :: 0 <= k <= n ==> Up(up, id, k).Some?
    ensures |r| == n && forall k :: 0 <= k < n ==> r[k] == Up(up, id, k).value
  {
    seq(n, k requires 0 <= k < n => Up(up, id, k).value)
  }

  lemma NotRound(up: map<Id, Id>, id: Id, i: nat, n: nat)
    requires !MeetsCycle(up, id) && Up(up, id, i).Some? && n > 0
    ensures Up(up, Up(up, id, i).value, n) != Some(Up(up, id, i).value)
  {
    assert !OwnAncestor(up, Up(up, id, i).value);
  }

  /** Away from cycles, a walk meets nothing twice, so it has run out of links by then. */
  lemma NoCycleEnds(up: map<Id, Id>, id: Id)
    requires !MeetsCycle(up, id)
    ensures WalkEnds(up, id)
  {
    var n := |up.Keys| + 1;
    if forall k: nat :: k <= n ==> Up(up, id, k).Some? {
      var seen := Walked(up, id, n);
      forall i, j | 0 <= i < j < n ensures seen[i] != seen[j] {
        UpAdds(up, id, i, j - i);
        NotRound(up, id, i, j - i);
      }
      forall k | 0 <= k < n ensures seen[k] in up.Keys {
        UpAdds(up, id, k, 1);
        assert Up(up, seen[k], 1).Some?;
      }
      DistinctFits(seen, up.Keys);
      assert false;
    } else {
      var k: nat :| k <= n && Up(up, id, k).None?;
    }
  }

  /** The walk up from `id` ends exactly when it does not meet one that is its own ancestor. */
  lemma WalkEndsExactly(up: map<Id, Id>, id: Id)
    ensures WalkEnds(up, id) <==> !MeetsCycle(up, id)
  {
    if MeetsCycle(up, id) { CycleNeverEnds(up, id); } else { NoCycleEnds(up, id); }
  }

  /** All walks end exactly when none is its own ancestor. */
  lemma AllWalksEndExactly(up: map<Id, Id>)
    ensures AllWalksEnd(up) <==> Acyclic(up)
  {
    if Acyclic(up) {
      forall id ensures WalkEnds(up, id) { WalkEndsExactly(up, id); }
    } else {
      var id :| OwnAncestor(up, id);
      assert Up(up, id, 0) == Some(id);
      assert MeetsCycle(up, id);
      WalkEndsExactly(up, id);
    }
  }

  lemma RoundTrip(up: map<Id, Id>, a: Id, b: Id)
    requires a in up && up[a] == b && b in up && up[b] == a
    ensures !WalkEnds(up, a)
  {
    assert Up(up, b, 1) == Up(up, a, 0);
    assert Up(up, a, 2) == Some(a) && Up(up, a, 0) == Some(a);
    CycleNeverEnds(up, a);
  }

  /** Two that lead to each other: the walk from either never ends. */
  lemma TwoGoRound(up: map<Id, Id>, a: Id, b: Id)
    requires a in up && up[a] == b && b in up && up[b] == a
    ensures !WalkEnds(up, a) && !WalkEnds(up, b)
  {
    RoundTrip(up, a, b);
    RoundTrip(up, b, a);
  }

  /** One that leads to itself. */
  lemma OneGoesRound(up: map<Id, Id>, a: Id)
    requires a in up && up[a] == a
    ensures !WalkEnds(up, a)
  {
    TwoGoRound(up, a, a);
  }
}
