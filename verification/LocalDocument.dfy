/** The single-user overlay document: in-place edits, minted group ids, and a bounded undo history. */
module LocalDocument {
  import opened Wrappers
  import opened Groups
  import opened GroupEdits
  import opened GroupPrune
  import opened OverlayCodec

  const HISTORY_LIMIT := 100

  // ---- Minted ids ----

  predicate IsDigit(c: char) { '0' <= c <= '9' }

  function Decimal(n: nat): (s: string)
    ensures s != "" && forall c :: c in s ==> IsDigit(c)
  {
    (if n < 10 then "" else Decimal(n / 10)) + [('0' as int + n % 10) as char]
  }

  function DigitsValue(s: string): nat
    requires forall c :: c in s ==> IsDigit(c)
  {
    if s == "" then 0
    else
      var last := s[|s| - 1];
      assert IsDigit(last);
      10 * DigitsValue(s[..|s| - 1]) + (last as int - '0' as int)
  }

  /** The number of an id of the form g followed by digits. */
  function NumberOf(id: Id): Option<nat> {
    if |id| >= 2 && id[0] == 'g' && forall c :: c in id[1..] ==> IsDigit(c) then Some(DigitsValue(id[1..])) else None
  }

  function MintedId(n: nat): Id { "g" + Decimal(n) }

  lemma {:induction false} DecimalValue(n: nat)
    ensures DigitsValue(Decimal(n)) == n
  {
    var s := Decimal(n);
    if n >= 10 {
      DecimalValue(n / 10);
      assert s[..|s| - 1] == Decimal(n / 10);
    }
  }

  lemma MintedNumber(n: nat)
    ensures NumberOf(MintedId(n)) == Some(n)
  {
    hide Decimal, DigitsValue;
    assert MintedId(n)[1..] == Decimal(n);
    DecimalValue(n);
  }

  /** A minted id is the letter g and the number in decimal digits, without a leading zero. */
  lemma {:induction false} MintedText(n: nat)
    ensures MintedId(n)[0] == 'g' && |MintedId(n)| >= 2 && (n > 0 ==> MintedId(n)[1] != '0')
    ensures n < 10 ==> MintedId(n) == ['g', ('0' as int + n) as char]
    ensures n >= 10 ==> MintedId(n) == MintedId(n / 10) + [('0' as int + n % 10) as char]
  {
    if n >= 10 { MintedText(n / 10); }
  }

  ghost predicate NumbersBelow(gs: GroupMap, n: nat) {
    forall k :: k in gs.keys && NumberOf(k).Some? ==> NumberOf(k).value < n
  }

  /** One past the largest number among the ids. */
  method NextGroupSeqFrom(gs: GroupMap) returns (n: nat)
    ensures NumbersBelow(gs, n)
    ensures n > 0 ==> exists k :: k in gs.keys && NumberOf(k) == Some(n - 1)
  {
    n := 0;
    for i := 0 to |gs.keys|
      invariant forall m :: 0 <= m < i && NumberOf(gs.keys[m]).Some? ==> NumberOf(gs.keys[m]).value < n
      invariant n > 0 ==> exists k :: k in gs.keys && NumberOf(k) == Some(n - 1)
    {
      var digits := NumberOf(gs.keys[i]);
      if digits.Some? && digits.value + 1 > n {
        n := digits.value + 1;
        assert gs.keys[i] in gs.keys && NumberOf(gs.keys[i]) == Some(n - 1);
      }
    }
  }

  // ---- The document as a value ----

  datatype Doc = Doc(now: Snapshot, groupSeq: nat, undo: seq<Snapshot>, redo: seq<Snapshot>)

  datatype Op =
    | ReplaceOverrides(o: map<Id, NodeOverride>)
    | SetEdgeStyle(edge: Id, edgeStyle: Option<EdgeStyle>)
    | SetNodeStyle(node: Id, nodeStyle: Option<NodeStyle>)
    | GroupNodes(units: seq<Member>)
    | UngroupAt(top: Id)
    | SetLocked(id: Id, locked: bool)
    | SetLabel(labelled: Id, caption: string)
    | PruneTo(live: set<Id>)
    | Replace(all: Snapshot, past: nat)
    | Record
    | Undo
    | Redo
    | ClearHistory

  ghost predicate ValidSnapshot(s: Snapshot) { IsMap(s.groups) }

  /** A replacement comes with the number its ids are counted past. */
  ghost predicate ValidOp(op: Op) { op.Replace? ==> ValidSnapshot(op.all) && NumbersBelow(op.all.groups, op.past) }

  function MaxNat(a: nat, b: nat): nat { if a >= b then a else b }

  function Apply(d: Doc, op: Op): Doc
    requires IsMap(d.now.groups)
  {
    match op
    case ReplaceOverrides(o) => d.(now := d.now.(overrides := o))
    case SetEdgeStyle(id, style) => d.(now := d.now.(edgeStyles := Put(d.now.edgeStyles, id, style)))
    case SetNodeStyle(id, style) => d.(now := d.now.(nodeStyles := Put(d.now.nodeStyles, id, style)))
    case GroupNodes(units) =>
      d.(now := d.now.(groups := WithGroup(d.now.groups, Group(MintedId(d.groupSeq), "", units, false))),
         groupSeq := d.groupSeq + 1)
    case UngroupAt(top) => d.(now := d.now.(groups := Ungroup(d.now.groups, top)))
    case SetLocked(id, locked) => d.(now := d.now.(groups := WithLock(d.now.groups, id, locked)))
    case SetLabel(id, caption) => d.(now := d.now.(groups := WithCaption(d.now.groups, id, caption)))
    case PruneTo(live) => d.(now := d.now.(groups := PruneResult(d.now.groups, live)))
    case Replace(all, past) => d.(now := all, groupSeq := MaxNat(d.groupSeq, past))
    case Record =>
      var pushed := d.undo + [d.now];
      d.(undo := if |pushed| > HISTORY_LIMIT then pushed[1..] else pushed, redo := [])
    case Undo =>
      if d.undo == [] then d
      else d.(now := d.undo[|d.undo| - 1], undo := d.undo[..|d.undo| - 1], redo := d.redo + [d.now])
    case Redo =>
      if d.redo == [] then d
      else d.(now := d.redo[|d.redo| - 1], redo := d.redo[..|d.redo| - 1], undo := d.undo + [d.now])
    case ClearHistory => d.(undo := [], redo := [])
  }

  // ---- The document in place ----

  class LocalDocument {
    var now: Snapshot
    var groupSeq: nat
    var undoStack: seq<Snapshot>
    var redoStack: seq<Snapshot>

    function Value(): Doc
      reads this
    {
      Doc(now, groupSeq, undoStack, redoStack)
    }

    constructor (initial: Snapshot)
      ensures Value() == Doc(initial, groupSeq, [], []) && NumbersBelow(initial.groups, groupSeq)
    {
      var seen := NextGroupSeqFrom(initial.groups);
      now, groupSeq, undoStack, redoStack := initial, seen, [], [];
    }

    method SetEdgeStyle(id: Id, style: Option<EdgeStyle>)
      requires IsMap(now.groups)
      modifies this
      ensures Value() == Apply(old(Value()), Op.SetEdgeStyle(id, style))
    {
      var next := now.edgeStyles;
      if style.None? { next := next - {id}; } else { next := next[id := style.value]; }
      now := now.(edgeStyles := next);
    }

    method SetNodeStyle(id: Id, style: Option<NodeStyle>)
      requires IsMap(now.groups)
      modifies this
      ensures Value() == Apply(old(Value()), Op.SetNodeStyle(id, style))
    {
      var next := now.nodeStyles;
      if style.None? { next := next - {id}; } else { next := next[id := style.value]; }
      now := now.(nodeStyles := next);
    }

    method ReplaceOverrides(o: map<Id, NodeOverride>)
      requires IsMap(now.groups)
      modifies this
      ensures Value() == Apply(old(Value()), Op.ReplaceOverrides(o)) && now == old(now).(overrides := o)
    {
      now := now.(overrides := o);
    }

    method UngroupAt(top: Id)
      requires IsMap(now.groups)
      modifies this
      ensures Value() == Apply(old(Value()), Op.UngroupAt(top))
    {
      now := now.(groups := Ungroup(now.groups, top));
    }

    method SetGroupLocked(id: Id, locked: bool)
      requires IsMap(now.groups)
      modifies this
      ensures Value() == Apply(old(Value()), SetLocked(id, locked))
      ensures OthersKept(old(now.groups), now.groups, id)
      ensures id in old(now.groups.at) ==>
                id in now.groups.at && now.groups.at[id] == old(now.groups.at)[id].(locked := locked)
    {
      now := now.(groups := WithLock(now.groups, id, locked));
    }

    method SetGroupLabel(id: Id, caption: string)
      requires IsMap(now.groups)
      modifies this
      ensures Value() == Apply(old(Value()), SetLabel(id, caption))
      ensures OthersKept(old(now.groups), now.groups, id)
      ensures id in old(now.groups.at) ==>
                id in now.groups.at && now.groups.at[id] == old(now.groups.at)[id].(caption := caption)
    {
      now := now.(groups := WithCaption(now.groups, id, caption));
    }

    method GroupNodes(units: seq<Member>)
      requires IsMap(now.groups)
      modifies this
      ensures Value() == Apply(old(Value()), Op.GroupNodes(units))
      ensures OthersKept(old(now.groups), now.groups, MintedId(old(groupSeq))) && groupSeq == old(groupSeq) + 1
      ensures var id := MintedId(old(groupSeq));
              id in now.groups.at && now.groups.at[id] == Group(id, "", units, false)
    {
      var id := MintedId(groupSeq);
      groupSeq := groupSeq + 1;
      now := now.(groups := WithGroup(now.groups, Group(id, "", units, false)));
    }

    method PruneGroupsTo(live: set<Id>) returns (changed: bool)
      requires IsMap(now.groups)
      modifies this
      ensures Value() == Apply(old(Value()), PruneTo(live)) && changed == HasDead(old(now.groups), live)
    {
      hide HasDead, Pruned, IsMap;
      var pruned;
      pruned, changed := PruneGroups(now.groups, live);
      if !changed { return; }
      now := now.(groups := pruned);
    }

    method Replace(all: Snapshot) returns (ghost past: nat)
      requires IsMap(now.groups)
      modifies this
      ensures NumbersBelow(all.groups, past) && Value() == Apply(old(Value()), Op.Replace(all, past))
      ensures now == all && groupSeq >= old(groupSeq) && NumbersBelow(all.groups, groupSeq)
    {
      now := all;
      var seen := NextGroupSeqFrom(all.groups);
      past := seen;
      groupSeq := MaxNat(groupSeq, seen);
    }

    method Record()
      requires IsMap(now.groups)
      modifies this
      ensures Value() == Apply(old(Value()), Op.Record)
    {
      undoStack := undoStack + [now];
      if |undoStack| > HISTORY_LIMIT { undoStack := undoStack[1..]; }
      redoStack := [];
    }

    method Undo() returns (ok: bool)
      requires IsMap(now.groups)
      modifies this
      ensures Value() == Apply(old(Value()), Op.Undo) && ok == (old(undoStack) != [])
    {
      if undoStack == [] { return false; }
      var prev := undoStack[|undoStack| - 1];
      undoStack := undoStack[..|undoStack| - 1];
      redoStack := redoStack + [now];
      now := prev;
      return true;
    }

    method Redo() returns (ok: bool)
      requires IsMap(now.groups)
      modifies this
      ensures Value() == Apply(old(Value()), Op.Redo) && ok == (old(redoStack) != [])
    {
      if redoStack == [] { return false; }
      var next := redoStack[|redoStack| - 1];
      redoStack := redoStack[..|redoStack| - 1];
      undoStack := undoStack + [now];
      now := next;
      return true;
    }

    method ClearHistory()
      requires IsMap(now.groups)
      modifies this
      ensures Value() == Apply(old(Value()), Op.ClearHistory)
    {
      undoStack, redoStack := [], [];
    }
  }

  // ---- Every run ----

  /** Ids in use anywhere, in the current state or in either stack, are numbered below the counter, and the two stacks
  together stay within the limit. */
  ghost predicate Inv(d: Doc) {
    && Numbered(d.now, d.groupSeq)
    && (forall s :: s in d.undo ==> Numbered(s, d.groupSeq)) && (forall s :: s in d.redo ==> Numbered(s, d.groupSeq))
    && |d.undo| + |d.redo| <= HISTORY_LIMIT
  }

  ghost predicate Numbered(s: Snapshot, n: nat) { IsMap(s.groups) && NumbersBelow(s.groups, n) }

  lemma NumberedAtMore(s: Snapshot, n: nat, m: nat)
    requires Numbered(s, n) && n <= m
    ensures Numbered(s, m)
  {
  }

  /** The groups of a step that leaves the history alone. */
  lemma GroupsStayNumbered(d: Doc, op: Op)
    requires Numbered(d.now, d.groupSeq) && ValidOp(op) && !op.Undo? && !op.Redo?
    ensures Numbered(Apply(d, op).now, Apply(d, op).groupSeq)
  {
    match op
    case GroupNodes(units) =>
      MintedNumber(d.groupSeq);
      AddedIsMap(d.now.groups, Group(MintedId(d.groupSeq), "", units, false));
    case UngroupAt(top) => UngroupIsMap(d.now.groups, top);
    case PruneTo(live) =>
      if HasDead(d.now.groups, live) {
        PrunedIsMap(d.now.groups, live);
        PrunedHasFewer(d.now.groups, live);
      }
    case _ =>
  }

  lemma StepKeeps(d: Doc, op: Op)
    requires Inv(d) && ValidOp(op)
    ensures Inv(Apply(d, op)) && Apply(d, op).groupSeq >= d.groupSeq
  {
    assert IsMap(d.now.groups);
    hide Numbered, NumbersBelow, Ungroup, WithGroup, PruneResult, MintedId, IsMap;
    var next := Apply(d, op);
    if !op.Undo? && !op.Redo? { GroupsStayNumbered(d, op); }
    forall s | Numbered(s, d.groupSeq) ensures Numbered(s, next.groupSeq) {
      NumberedAtMore(s, d.groupSeq, next.groupSeq);
    }
  }

  /** Every run from a document whose ids are counted; each replacement is counted too. */
  ghost function Run(d: Doc, ops: seq<Op>): Doc
    requires Inv(d) && forall op :: op in ops ==> ValidOp(op)
    decreases |ops|
  {
    if ops == [] then d
    else
      assert ops[0] in ops;
      StepKeeps(d, ops[0]);
      Run(Apply(d, ops[0]), ops[1..])
  }

  lemma {:induction false} RunKeeps(d: Doc, ops: seq<Op>)
    requires Inv(d) && forall op :: op in ops ==> ValidOp(op)
    ensures Inv(Run(d, ops))
    decreases |ops|
  {
    if ops != [] {
      hide Inv, Apply, ValidOp;
      assert ops[0] in ops;
      StepKeeps(d, ops[0]);
      RunKeeps(Apply(d, ops[0]), ops[1..]);
    }
  }

  /** In every run the next id to be minted is in use nowhere: not now, and not in anything undo or redo could bring
  back; and the two stacks together never exceed the limit. */
  lemma MintedIsFresh(initial: Snapshot, past: nat, ops: seq<Op>)
    requires Numbered(initial, past) && forall op :: op in ops ==> ValidOp(op)
    ensures var d := Run(Doc(initial, past, [], []), ops);
            var id := MintedId(d.groupSeq);
            && id !in d.now.groups.at
            && (forall s :: s in d.undo ==> id !in s.groups.at) && (forall s :: s in d.redo ==> id !in s.groups.at)
            && |d.undo| + |d.redo| <= 100
  {
    RunKeeps(Doc(initial, past, [], []), ops);
    var d := Run(Doc(initial, past, [], []), ops);
    forall s | Numbered(s, d.groupSeq) ensures MintedId(d.groupSeq) !in s.groups.at { NumberedAvoids(s, d.groupSeq); }
  }

  lemma NumberedAvoids(s: Snapshot, n: nat)
    requires Numbered(s, n)
    ensures MintedId(n) !in s.groups.at
  {
    MintedNumber(n);
  }

  // ---- Undo and redo ----

  predicate IsEdit(op: Op) { !op.Record? && !op.Undo? && !op.Redo? && !op.ClearHistory? }

  lemma {:induction false} EditsKeepHistory(d: Doc, ops: seq<Op>)
    requires Inv(d) && forall op :: op in ops ==> ValidOp(op) && IsEdit(op)
    ensures Run(d, ops).undo == d.undo && Run(d, ops).redo == d.redo
    decreases |ops|
  {
    if ops != [] {
      assert ops[0] in ops;
      StepKeeps(d, ops[0]);
      EditsKeepHistory(Apply(d, ops[0]), ops[1..]);
    }
  }

  /** Undoing after a recorded point, whatever edits came in between, restores that point. */
  lemma UndoRestores(d: Doc, ops: seq<Op>)
    requires Inv(d) && forall op :: op in ops ==> ValidOp(op) && IsEdit(op)
    ensures Inv(Apply(d, Record)) && Inv(Run(Apply(d, Record), ops))
    ensures Apply(Run(Apply(d, Record), ops), Undo).now == d.now
    ensures Apply(Run(Apply(d, Record), ops), Undo).undo == if |d.undo| < 100 then d.undo else d.undo[1..]
  {
    StepKeeps(d, Record);
    EditsKeepHistory(Apply(d, Record), ops);
    RunKeeps(Apply(d, Record), ops);
  }

  function Undone(d: Doc, k: nat): Doc
    requires IsMap(d.now.groups) && forall s :: s in d.undo ==> IsMap(s.groups)
    decreases k
  {
    if k == 0 || d.undo == [] then d
    else
      assert d.undo[|d.undo| - 1] in d.undo;
      Undone(Apply(d, Undo), k - 1)
  }

  function Redone(d: Doc, k: nat): Doc
    requires IsMap(d.now.groups) && forall s :: s in d.redo ==> IsMap(s.groups)
    decreases k
  {
    if k == 0 || d.redo == [] then d
    else
      assert d.redo[|d.redo| - 1] in d.redo;
      Redone(Apply(d, Redo), k - 1)
  }

  lemma RedoneLast(d: Doc, k: nat)
    requires IsMap(d.now.groups) && (forall s :: s in d.redo ==> IsMap(s.groups)) && k < |d.redo|
    ensures IsMap(Redone(d, k).now.groups) && Redone(d, k + 1) == Apply(Redone(d, k), Redo)
    ensures Redone(d, k).redo == d.redo[..|d.redo| - k]
    decreases k
  {
    if k > 0 {
      assert d.redo[|d.redo| - 1] in d.redo;
      RedoneLast(Apply(d, Redo), k - 1);
    }
  }

  lemma UndoneOnce(d: Doc)
    requires IsMap(d.now.groups) && d.undo != [] && IsMap(d.undo[|d.undo| - 1].groups)
    ensures var one := Apply(d, Undo);
            && one.now == d.undo[|d.undo| - 1] && one.undo == d.undo[..|d.undo| - 1] && one.redo == d.redo + [d.now]
            && Apply(one, Redo) == d
  {
  }

  ghost predicate AllMaps(d: Doc) {
    IsMap(d.now.groups) && (forall s :: s in d.undo ==> IsMap(s.groups)) && forall s :: s in d.redo ==> IsMap(s.groups)
  }

  /** Redoing as often as one has undone gives back the very same document. */
  lemma {:induction false} RedoInvertsUndo(d: Doc, k: nat)
    requires AllMaps(d) && k <= |d.undo|
    ensures AllMaps(Undone(d, k)) && |Undone(d, k).redo| == |d.redo| + k && Redone(Undone(d, k), k) == d
    decreases k
  {
    if k > 0 {
      hide Apply, IsMap;
      assert d.undo[|d.undo| - 1] in d.undo;
      UndoneOnce(d);
      var one := Apply(d, Undo);
      RedoInvertsUndo(one, k - 1);
      RedoneLast(Undone(one, k - 1), k - 1);
    }
  }
}
