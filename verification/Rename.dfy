/** Renaming a block id in diagram text: whole identifiers only, everywhere, and back again. */
module Rename {
  import opened Wrappers

  predicate IsIdentChar(c: char) { 'A' <= c <= 'Z' || 'a' <= c <= 'z' || '0' <= c <= '9' || c == '_' }

  /** Identifiers are made of the ASCII digits, letters and the underscore, by code point, and of nothing else. */
  lemma IdentCharsAre(c: char)
    ensures IsIdentChar(c) <==>
            48 <= c as int <= 57 || 65 <= c as int <= 90 || 97 <= c as int <= 122 || c as int == 95
  {
  }

  predicate AllIdent(s: string) { forall c :: c in s ==> IsIdentChar(c) }

  predicate IsIdent(s: string) { s != "" && AllIdent(s) }

  // ---- Tokens ----

  /** The length of the identifier run at the front. */
  function RunLength(s: string): (n: nat)
    ensures n <= |s| && AllIdent(s[..n]) && (n < |s| ==> !IsIdentChar(s[n]))
  {
    if s == "" || !IsIdentChar(s[0]) then 0
    else
      var n := RunLength(s[1..]);
      assert s[..n + 1] == [s[0]] + s[1..][..n];
      n + 1
  }

  /** How much the first token takes: the whole run, or the one character that is not part of any. */
  function TokenLength(s: string): (n: nat)
    requires s != ""
    ensures 0 < n <= |s|
  {
    if RunLength(s) == 0 then 1 else RunLength(s)
  }

  function Tokens(s: string): seq<string> {
    if s == "" then [] else [s[..TokenLength(s)]] + Tokens(s[TokenLength(s)..])
  }

  function Join(ts: seq<string>): string { if ts == [] then "" else ts[0] + Join(ts[1..]) }

  /** `ts` cuts a text into its maximal identifier runs and single other characters. */
  ghost predicate Maximal(ts: seq<string>) {
    && (forall t :: t in ts ==> IsIdent(t) || (|t| == 1 && !IsIdentChar(t[0])))
    && (forall k :: 0 <= k < |ts| - 1 ==> !(IsIdent(ts[k]) && IsIdent(ts[k + 1])))
  }

  lemma {:induction false} TokensAreMaximal(s: string)
    ensures Maximal(Tokens(s)) && Join(Tokens(s)) == s
    ensures s != "" ==> IsIdent(Tokens(s)[0]) == IsIdentChar(s[0])
  {
    if s != "" {
      var n := TokenLength(s);
      TokensAreMaximal(s[n..]);
      assert s == s[..n] + s[n..];
      assert s[..n][0] == s[0];
      assert RunLength(s) > 0 && n < |s| ==> s[n..][0] == s[n];
      var ts := Tokens(s);
      assert ts[1..] == Tokens(s[n..]);
      forall k | 0 <= k < |ts| - 1 ensures !(IsIdent(ts[k]) && IsIdent(ts[k + 1])) {
        if k > 0 {
          assert ts[k] == ts[1..][k - 1] && ts[k + 1] == ts[1..][k];
        } else {
          assert ts[1] == Tokens(s[n..])[0];
        }
      }
    }
  }

  lemma {:induction false} RunOfJoined(t: string, rest: string)
    requires AllIdent(t) && (rest != "" ==> !IsIdentChar(rest[0]))
    ensures RunLength(t + rest) == |t|
  {
    if t == "" {
      assert t + rest == rest;
    } else {
      assert (t + rest)[1..] == t[1..] + rest;
      RunOfJoined(t[1..], rest);
    }
  }

  lemma JoinedStart(ts: seq<string>)
    requires Maximal(ts) && ts != []
    ensures Join(ts) != "" && Join(ts)[0] == ts[0][0] && IsIdentChar(ts[0][0]) == IsIdent(ts[0])
  {
    assert ts[0] in ts;
  }

  /** There is only one such cut. */
  lemma {:induction false} CutIsUnique(ts: seq<string>)
    requires Maximal(ts)
    ensures Tokens(Join(ts)) == ts
  {
    if ts != [] {
      var s, t, rest := Join(ts), ts[0], Join(ts[1..]);
      assert t in ts;
      MaximalTail(ts);
      CutIsUnique(ts[1..]);
      JoinedStart(ts);
      if IsIdent(t) {
        if |ts| > 1 {
          JoinedStart(ts[1..]);
          assert ts[1..][0] == ts[1];
        }
        RunOfJoined(t, rest);
      }
      assert TokenLength(s) == |t|;
      assert s[..|t|] == t && s[|t|..] == rest;
    }
  }

  lemma MaximalTail(ts: seq<string>)
    requires Maximal(ts) && ts != []
    ensures Maximal(ts[1..])
  {
    forall k | 0 <= k < |ts[1..]| - 1 ensures !(IsIdent(ts[1..][k]) && IsIdent(ts[1..][k + 1])) {
      assert ts[1..][k] == ts[k + 1] && ts[1..][k + 1] == ts[k + 2];
    }
  }

  // ---- Renaming ----

  function RenameToken(t: string, oldId: string, newId: string): string { if t == oldId then newId else t }

  function RenameTokens(ts: seq<string>, oldId: string, newId: string): (r: seq<string>)
    ensures |r| == |ts| && forall k :: 0 <= k < |ts| ==> r[k] == RenameToken(ts[k], oldId, newId)
  {
    if ts == [] then [] else [RenameToken(ts[0], oldId, newId)] + RenameTokens(ts[1..], oldId, newId)
  }

  /** The text with every whole identifier `oldId` replaced. */
  function Renamed(s: string, oldId: string, newId: string): string { Join(RenameTokens(Tokens(s), oldId, newId)) }

  lemma RenamedStep(s: string, oldId: string, newId: string)
    requires s != ""
    ensures Renamed(s, oldId, newId) ==
            RenameToken(s[..TokenLength(s)], oldId, newId) + Renamed(s[TokenLength(s)..], oldId, newId)
  {
    var ts := RenameTokens(Tokens(s), oldId, newId);
    assert ts[1..] == RenameTokens(Tokens(s[TokenLength(s)..]), oldId, newId);
  }

  /** What is still to be written when the scan stands at `i`: inside a run that was not the id, the rest of the run. */
  ghost function Pending(s: string, i: nat, oldId: string, newId: string): string
    requires i <= |s|
  {
    if i > 0 && IsIdentChar(s[i - 1]) then
      s[i..][..RunLength(s[i..])] + Renamed(s[i..][RunLength(s[i..])..], oldId, newId)
    else Renamed(s[i..], oldId, newId)
  }

  predicate StartsAt(s: string, i: nat, t: string) { i + |t| <= |s| && s[i..i + |t|] == t }

  predicate IdentAt(s: string, i: int) { 0 <= i < |s| && IsIdentChar(s[i]) }

  /** A match with nothing identifier-like on either side is a whole run. */
  lemma MatchIsRun(s: string, i: nat, oldId: string)
    requires i < |s| && IsIdent(oldId)
    ensures StartsAt(s, i, oldId) && !IdentAt(s, i + |oldId|) <==> s[i..][..RunLength(s[i..])] == oldId
  {
    var rest, n := s[i..], RunLength(s[i..]);
    if StartsAt(s, i, oldId) && !IdentAt(s, i + |oldId|) {
      assert rest == oldId + rest[|oldId|..];
      assert |oldId| < |rest| ==> rest[|oldId|..][0] == s[i + |oldId|];
      RunOfJoined(oldId, rest[|oldId|..]);
    }
    if rest[..n] == oldId {
      assert s[i..i + n] == rest[..n];
      assert n < |rest| ==> rest[n] == s[i + n];
    }
  }

  lemma PendingMatch(s: string, i: nat, oldId: string, newId: string)
    requires i < |s| && IsIdent(oldId) && StartsAt(s, i, oldId) && !IdentAt(s, i - 1) && !IdentAt(s, i + |oldId|)
    ensures Pending(s, i, oldId, newId) == newId + Pending(s, i + |oldId|, oldId, newId)
  {
    hide Renamed, AllIdent;
    MatchIsRun(s, i, oldId);
    RenamedStep(s[i..], oldId, newId);
    var j := i + |oldId|;
    assert s[j - 1] == oldId[|oldId| - 1] by { assert s[j - 1] == s[i..j][|oldId| - 1]; }
    assert s[i..][|oldId|..] == s[j..];
    assert RunLength(s[j..]) == 0 by { if j < |s| { assert s[j..][0] == s[j]; } }
    assert s[j..][..0] + Renamed(s[j..][0..], oldId, newId) == Renamed(s[j..], oldId, newId) by {
      assert s[j..][0..] == s[j..];
    }
  }

  lemma PendingOther(s: string, i: nat, oldId: string, newId: string)
    requires i < |s| && IsIdent(oldId) && !(StartsAt(s, i, oldId) && !IdentAt(s, i - 1) && !IdentAt(s, i + |oldId|))
    ensures Pending(s, i, oldId, newId) == [s[i]] + Pending(s, i + 1, oldId, newId)
  {
    var rest := s[i..];
    var n := RunLength(rest);
    assert rest[0] == s[i] && rest[1..] == s[i + 1..];
    MatchIsRun(s, i, oldId);
    if i > 0 && IsIdentChar(s[i - 1]) {
      if n == 0 {
        RenamedStep(rest, oldId, newId);
        assert rest[..0] + Renamed(rest[0..], oldId, newId) == Renamed(rest, oldId, newId) by {
          assert rest[0..] == rest;
        }
        assert rest[..1] == [s[i]] && rest[..1] != oldId;
      } else {
        InsideRun(rest, oldId, newId);
      }
    } else {
      RenamedStep(rest, oldId, newId);
      if n == 0 {
        assert rest[..1] == [s[i]] && rest[..1] != oldId;
      } else {
        InsideRun(rest, oldId, newId);
      }
    }
  }

  lemma InsideRun(rest: string, oldId: string, newId: string)
    requires rest != "" && IsIdentChar(rest[0])
    ensures RunLength(rest) == RunLength(rest[1..]) + 1
    ensures var n := RunLength(rest);
            rest[..n] + Renamed(rest[n..], oldId, newId) ==
            [rest[0]] + (rest[1..][..n - 1] + Renamed(rest[1..][n - 1..], oldId, newId))
  {
    hide Renamed;
    var n := RunLength(rest);
    assert rest[..n] == [rest[0]] + rest[1..][..n - 1];
    assert rest[n..] == rest[1..][n - 1..];
    Associates([rest[0]], rest[1..][..n - 1], Renamed(rest[n..], oldId, newId));
  }

  /** `out` is the renamed text up to what is pending at `i`. */
  ghost predicate Scanned(s: string, i: nat, oldId: string, newId: string, out: string) {
    var scanned := i <= |s| && out + Pending(s, i, oldId, newId) == Renamed(s, oldId, newId);
    scanned
  }

  lemma ScannedStep(s: string, i: nat, oldId: string, newId: string, out: string)
    requires i < |s| && IsIdent(oldId) && Scanned(s, i, oldId, newId, out)
    ensures if StartsAt(s, i, oldId) && !IdentAt(s, i - 1) && !IdentAt(s, i + |oldId|)
            then Scanned(s, i + |oldId|, oldId, newId, out + newId)
            else Scanned(s, i + 1, oldId, newId, out + [s[i]])
  {
    hide Pending, Renamed, IdentAt;
    if StartsAt(s, i, oldId) && !IdentAt(s, i - 1) && !IdentAt(s, i + |oldId|) {
      PendingMatch(s, i, oldId, newId);
      Associates(out, newId, Pending(s, i + |oldId|, oldId, newId));
    } else {
      PendingOther(s, i, oldId, newId);
      Associates(out, [s[i]], Pending(s, i + 1, oldId, newId));
    }
  }

  /** The character scan. */
  method RenameBlockId(text: string, oldId: string, newId: string) returns (out: string)
    requires AllIdent(oldId)
    ensures out == if oldId == "" then text else Renamed(text, oldId, newId)
  {
    if |oldId| == 0 { return text; }
    out := "";
    var i := 0;
    PendingStart(text, oldId, newId);
    assert out + Pending(text, 0, oldId, newId) == Pending(text, 0, oldId, newId);
    assert IsIdent(oldId) && Scanned(text, 0, oldId, newId, out);
    while i < |text|
      invariant 0 <= i <= |text| && Scanned(text, i, oldId, newId, out)
    {
      hide Pending, Renamed, IdentAt, Scanned, AllIdent, IsIdent;
      ScannedStep(text, i, oldId, newId, out);
      if StartsAt(text, i, oldId) && !IdentAt(text, i - 1) && !IdentAt(text, i + |oldId|) {
        out := out + newId;
        i := i + |oldId|;
      } else {
        out := out + [text[i]];
        i := i + 1;
      }
    }
    PendingEnd(text, oldId, newId);
  }

  lemma PendingStart(s: string, oldId: string, newId: string)
    ensures Pending(s, 0, oldId, newId) == Renamed(s, oldId, newId)
  {
    assert s[0..] == s;
  }

  lemma PendingEnd(s: string, oldId: string, newId: string)
    ensures Pending(s, |s|, oldId, newId) == ""
  {
    assert s[|s|..] == "";
  }

  // ---- Exactly the whole identifiers, and back again ----

  /** The renamed text has the same identifiers and separators in the same order, but for the one renamed. */
  lemma RenamedTokens(s: string, oldId: string, newId: string)
    requires IsIdent(oldId) && IsIdent(newId)
    ensures Tokens(Renamed(s, oldId, newId)) == RenameTokens(Tokens(s), oldId, newId)
  {
    hide Tokens, Join, RenameTokens;
    TokensAreMaximal(s);
    StaysMaximal(Tokens(s), RenameTokens(Tokens(s), oldId, newId), oldId, newId);
    CutIsUnique(RenameTokens(Tokens(s), oldId, newId));
  }

  lemma StaysMaximal(ts: seq<string>, rs: seq<string>, oldId: string, newId: string)
    requires IsIdent(oldId) && IsIdent(newId) && Maximal(ts)
    requires |rs| == |ts| && forall k :: 0 <= k < |ts| ==> rs[k] == RenameToken(ts[k], oldId, newId)
    ensures Maximal(rs)
  {
    hide IsIdent;
    forall t | t in rs ensures IsIdent(t) || (|t| == 1 && !IsIdentChar(t[0])) {
      var k :| 0 <= k < |rs| && rs[k] == t;
      assert ts[k] in ts;
    }
    forall k | 0 <= k < |rs| - 1 ensures !(IsIdent(rs[k]) && IsIdent(rs[k + 1])) {
      assert !(IsIdent(ts[k]) && IsIdent(ts[k + 1]));
      assert IsIdent(rs[k]) ==> IsIdent(ts[k]);
      assert IsIdent(rs[k + 1]) ==> IsIdent(ts[k + 1]);
    }
  }

  lemma {:induction false} RenameTokensBack(ts: seq<string>, oldId: string, newId: string)
    ensures RenameTokens(RenameTokens(ts, oldId, newId), newId, oldId) == ts <==> oldId == newId || newId !in ts
  {
    var back := RenameTokens(RenameTokens(ts, oldId, newId), newId, oldId);
    forall k | 0 <= k < |ts| ensures back[k] == ts[k] <==> ts[k] != newId || oldId == newId {}
    if newId in ts && oldId != newId {
      var k :| 0 <= k < |ts| && ts[k] == newId;
      assert back[k] != ts[k];
    }
  }

  /** Renaming back restores the text exactly when the new id was not already in it. */
  lemma RenameBack(s: string, oldId: string, newId: string)
    requires IsIdent(oldId) && IsIdent(newId)
    ensures Renamed(Renamed(s, oldId, newId), newId, oldId) == s <==> oldId == newId || newId !in Tokens(s)
  {
    RenamedTokens(s, oldId, newId);
    RenamedTokens(Renamed(s, oldId, newId), newId, oldId);
    RenameTokensBack(Tokens(s), oldId, newId);
    TokensAreMaximal(s);
  }
}
