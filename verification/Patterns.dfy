/** Regular expressions, as the repository writes them.

Every pattern the repository uses is a list of pieces, each a repetition of one character
class, greedy or lazy, followed by the end anchor.  A pattern is therefore data here, and one
backtracking function runs all of them.  What that function finds is pinned down
independently: the way of cutting the line that comes first when ways are compared piece by
piece, more characters first for a greedy piece and fewer first for a lazy one.
*/
module Patterns {
  import opened Wrappers

  datatype CharClass = AnyButNewline | Between(lo: char, hi: char) | Except(c: char) | Only(c: char) {
    predicate Has(x: char) {
      match this
      case AnyButNewline => x != '\n'
      case Between(lo, hi) => lo <= x <= hi
      case Except(c) => x != c
      case Only(c) => x == c
    }
  }

  datatype Piece = Piece(chars: CharClass, min: nat, max: Option<nat>, greedy: bool)

  type Pattern = seq<Piece>

  function Plus(c: CharClass): Piece { Piece(c, 1, None, true) }

  function LazyPlus(c: CharClass): Piece { Piece(c, 1, None, false) }

  function Star(c: CharClass): Piece { Piece(c, 0, None, true) }

  function Maybe(c: CharClass): Piece { Piece(c, 0, Some(1), true) }

  function Lit(c: char): Piece { Piece(Only(c), 1, Some(1), true) }

  /** The end anchor without the multi-line flag: at the end, or before a final newline. */
  predicate AtEnd(s: string, pos: nat) {
    pos == |s| || (pos + 1 == |s| && s[pos] == '\n')
  }

  /** Piece p may match exactly s[from..to]. */
  predicate Fits(p: Piece, s: string, from: nat, to: nat) {
    && from + p.min <= to <= |s|
    && (p.max.Some? ==> to <= from + p.max.value)
    && forall i | from <= i < to :: p.chars.Has(s[i])
  }

  function Start(pos: nat, ends: seq<nat>, k: nat): nat
    requires k <= |ends|
  {
    if k == 0 then pos else ends[k-1]
  }

  /** Cutting s from pos at the given ends is a way for the pattern to match. */
  ghost predicate IsWay(p: Pattern, s: string, pos: nat, ends: seq<nat>) {
    && |ends| == |p|
    && (forall k | 0 <= k < |p| :: Fits(p[k], s, Start(pos, ends, k), ends[k]))
    && AtEnd(s, Start(pos, ends, |p|))
  }

  /** Way a is tried strictly before way b. */
  ghost predicate TriedBefore(p: Pattern, a: seq<nat>, b: seq<nat>)
    requires |a| == |b| == |p|
  {
    exists k: nat | k < |p| ::
      && a[..k] == b[..k]
      && if p[k].greedy then a[k] > b[k] else a[k] < b[k]
  }

  /** The end of the longest run that piece p could take, ignoring its minimum. */
  function RunEnd(p: Piece, s: string, from: nat, to: nat): (r: nat)
    requires from <= to <= |s|
    ensures to <= r <= |s|
    decreases |s| - to
  {
    if to == |s| || !p.chars.Has(s[to]) || (p.max.Some? && to == from + p.max.value) then
      to
    else
      RunEnd(p, s, from, to + 1)
  }

  lemma {:induction false} RunEndFits(p: Piece, s: string, from: nat, to: nat)
    requires from <= to <= |s| && forall i | from <= i < to :: p.chars.Has(s[i])
    requires p.max.Some? ==> to <= from + p.max.value
    ensures forall e: nat | RunEnd(p, s, from, to) < e :: !Fits(p, s, from, e)
    ensures forall e: nat | from + p.min <= e <= RunEnd(p, s, from, to) :: Fits(p, s, from, e)
    decreases |s| - to
  {
    if to < |s| && p.chars.Has(s[to]) && !(p.max.Some? && to == from + p.max.value) {
      RunEndFits(p, s, from, to + 1);
    }
  }

  /** Backtracking search, from the first piece on. */
  function Match(p: Pattern, s: string, pos: nat): (r: Option<seq<nat>>)
    ensures r.Some? ==> |r.value| == |p|
    decreases |p|, 0, |s|
  {
    if p == [] then
      if AtEnd(s, pos) then Some([]) else None
    else if pos > |s| then
      None
    else if p[0].greedy then
      MatchDown(p, s, pos, RunEnd(p[0], s, pos, pos))
    else
      MatchUp(p, s, pos, pos + p[0].min)
  }

  /** A greedy first piece gives characters back one at a time. */
  function MatchDown(p: Pattern, s: string, pos: nat, end: nat): (r: Option<seq<nat>>)
    requires p != []
    ensures r.Some? ==> |r.value| == |p|
    decreases |p| - 1, 1, end
  {
    if end < pos + p[0].min then
      None
    else
      match Match(p[1..], s, end)
      case Some(rest) => Some([end] + rest)
      case None => if end == 0 then None else MatchDown(p, s, pos, end - 1)
  }

  /** A lazy first piece takes one more character at a time. */
  function MatchUp(p: Pattern, s: string, pos: nat, end: nat): (r: Option<seq<nat>>)
    requires p != []
    ensures r.Some? ==> |r.value| == |p|
    decreases |p| - 1, 1, if end <= |s| then |s| + 1 - end else 0
  {
    if !Fits(p[0], s, pos, end) then
      None
    else
      match Match(p[1..], s, end)
      case Some(rest) => Some([end] + rest)
      case None => MatchUp(p, s, pos, end + 1)
  }

  lemma WayHeadTail(p: Pattern, s: string, pos: nat, ends: seq<nat>)
    requires p != [] && |ends| == |p|
    ensures IsWay(p, s, pos, ends)
       <==> Fits(p[0], s, pos, ends[0]) && IsWay(p[1..], s, ends[0], ends[1..])
  {
    assert forall k | 0 <= k < |p| - 1 :: Start(ends[0], ends[1..], k) == Start(pos, ends, k + 1);
    assert Start(ends[0], ends[1..], |p| - 1) == Start(pos, ends, |p|);
    if IsWay(p[1..], s, ends[0], ends[1..]) && Fits(p[0], s, pos, ends[0]) {
      forall k | 0 <= k < |p| ensures Fits(p[k], s, Start(pos, ends, k), ends[k]) {
        if k > 0 {
          assert Fits(p[1..][k-1], s, Start(ends[0], ends[1..], k - 1), ends[1..][k-1]);
        }
      }
    }
  }

  lemma {:induction false} MatchIsAWay(p: Pattern, s: string, pos: nat)
    ensures Match(p, s, pos).Some? ==> IsWay(p, s, pos, Match(p, s, pos).value)
    decreases |p|, 0, |s|
  {
    if p != [] && pos <= |s| {
      if p[0].greedy {
        MatchDownIsAWay(p, s, pos, RunEnd(p[0], s, pos, pos));
      } else {
        MatchUpIsAWay(p, s, pos, pos + p[0].min);
      }
    }
  }

  lemma WayCons(p: Pattern, s: string, pos: nat, end: nat, rest: seq<nat>)
    requires p != [] && |rest| == |p| - 1 && Fits(p[0], s, pos, end) && IsWay(p[1..], s, end, rest)
    ensures IsWay(p, s, pos, [end] + rest)
  {
    assert ([end] + rest)[1..] == rest;
    WayHeadTail(p, s, pos, [end] + rest);
  }

  lemma {:induction false} MatchDownIsAWay(p: Pattern, s: string, pos: nat, end: nat)
    requires p != []
    requires pos <= |s| && end <= RunEnd(p[0], s, pos, pos)
    ensures var r := MatchDown(p, s, pos, end); r.Some? ==> IsWay(p, s, pos, r.value)
    decreases |p| - 1, 1, end
  {
    hide IsWay;
    RunEndFits(p[0], s, pos, pos);
    if end >= pos + p[0].min {
      MatchIsAWay(p[1..], s, end);
      match Match(p[1..], s, end)
      case Some(rest) =>
        WayCons(p, s, pos, end, rest);
      case None => if end > 0 { MatchDownIsAWay(p, s, pos, end - 1); }
    }
  }

  lemma {:induction false} MatchUpIsAWay(p: Pattern, s: string, pos: nat, end: nat)
    requires p != []
    ensures var r := MatchUp(p, s, pos, end); r.Some? ==> IsWay(p, s, pos, r.value)
    decreases |p| - 1, 1, if end <= |s| then |s| + 1 - end else 0
  {
    hide IsWay;
    if Fits(p[0], s, pos, end) {
      MatchIsAWay(p[1..], s, end);
      match Match(p[1..], s, end)
      case Some(rest) =>
        WayCons(p, s, pos, end, rest);
      case None => MatchUpIsAWay(p, s, pos, end + 1);
    }
  }

  /** r was found, and it is b or is tried before b. */
  ghost predicate NoLaterThan(p: Pattern, r: Option<seq<nat>>, b: seq<nat>) {
    r.Some? && |r.value| == |b| == |p| && (r.value == b || TriedBefore(p, r.value, b))
  }

  lemma NoLaterCons(p: Pattern, rest: seq<nat>, e: nat, b: seq<nat>)
    requires p != [] && |b| == |p| && b[0] == e
    requires NoLaterThan(p[1..], Some(rest), b[1..])
    ensures NoLaterThan(p, Some([e] + rest), b)
  {
    var a := [e] + rest;
    assert b == [b[0]] + b[1..];
    if rest != b[1..] {
      var k: nat :| k < |p| - 1 && rest[..k] == b[1..][..k]
        && if p[1..][k].greedy then rest[k] > b[1..][k] else rest[k] < b[1..][k];
      assert a[..k+1] == [e] + rest[..k] && b[..k+1] == [e] + b[1..][..k];
      assert TriedBefore(p, a, b);
    }
  }

  lemma NothingLater(p: Pattern, b: seq<nat>)
    requires p == [] && b == []
    ensures NoLaterThan(p, Some([]), b)
  {
  }

  lemma FirstFits(p: Pattern, s: string, pos: nat, b: seq<nat>)
    requires p != [] && IsWay(p, s, pos, b)
    ensures b != [] && Fits(p[0], s, pos, b[0])
  {
    assert Fits(p[0], s, Start(pos, b, 0), b[0]);
  }

  lemma {:induction false} MatchIsEarliest(p: Pattern, s: string, pos: nat, b: seq<nat>)
    requires IsWay(p, s, pos, b)
    ensures NoLaterThan(p, Match(p, s, pos), b)
    decreases |p|, 0, |s|
  {
    hide TriedBefore, NoLaterThan;
    if p == [] {
      NothingLater(p, b);
    } else {
      FirstFits(p, s, pos, b);
      hide IsWay;
      if p[0].greedy {
        RunEndFits(p[0], s, pos, pos);
        MatchDownIsEarliest(p, s, pos, RunEnd(p[0], s, pos, pos), b);
      } else {
        MatchUpIsEarliest(p, s, pos, pos + p[0].min, b);
      }
    }
  }

  lemma {:induction false} MatchDownIsEarliest(p: Pattern, s: string, pos: nat, end: nat, b: seq<nat>)
    requires p != [] && p[0].greedy
    requires IsWay(p, s, pos, b) && b[0] <= end
    ensures NoLaterThan(p, MatchDown(p, s, pos, end), b)
    decreases |p| - 1, 1, end
  {
    WayHeadTail(p, s, pos, b);
    if end == b[0] { MatchIsEarliest(p[1..], s, end, b[1..]); }
    match Match(p[1..], s, end)
    case Some(rest) =>
      if end == b[0] {
        NoLaterCons(p, rest, end, b);
      } else {
        var a := [end] + rest;
        assert a[..0] == b[..0] && a[0] > b[0];
      }
    case None => MatchDownIsEarliest(p, s, pos, end - 1, b);
  }

  lemma {:induction false} MatchUpIsEarliest(p: Pattern, s: string, pos: nat, end: nat, b: seq<nat>)
    requires p != [] && !p[0].greedy
    requires IsWay(p, s, pos, b) && pos + p[0].min <= end <= b[0]
    ensures NoLaterThan(p, MatchUp(p, s, pos, end), b)
    decreases |p| - 1, 1, if end <= |s| then |s| + 1 - end else 0
  {
    WayHeadTail(p, s, pos, b);
    assert Fits(p[0], s, pos, end);
    if end == b[0] { MatchIsEarliest(p[1..], s, end, b[1..]); }
    match Match(p[1..], s, end)
    case Some(rest) =>
      if end == b[0] {
        NoLaterCons(p, rest, end, b);
      } else {
        var a := [end] + rest;
        assert a[..0] == b[..0] && a[0] < b[0];
      }
    case None => MatchUpIsEarliest(p, s, pos, end + 1, b);
  }

  lemma PrefixesAgree(a: seq<nat>, b: seq<nat>, k: nat)
    requires k <= |a| && k <= |b| && a[..k] == b[..k]
    ensures forall i | 0 <= i < k :: a[i] == b[i]
  {
    forall i | 0 <= i < k ensures a[i] == b[i] {
      assert a[..k][i] == b[..k][i];
    }
  }

  lemma TriedBeforeAsymmetric(p: Pattern, a: seq<nat>, b: seq<nat>)
    requires |a| == |b| == |p| && TriedBefore(p, a, b)
    ensures a != b && !TriedBefore(p, b, a)
  {
    var k: nat :| k < |p| && a[..k] == b[..k] && if p[k].greedy then a[k] > b[k] else a[k] < b[k];
    PrefixesAgree(a, b, k);
    if TriedBefore(p, b, a) {
      var j: nat :| j < |p| && b[..j] == a[..j] && if p[j].greedy then b[j] > a[j] else b[j] < a[j];
      PrefixesAgree(b, a, j);
    }
  }

  /** The search returns a given cut exactly when that cut is a way and no way is tried before it. */
  lemma MatchExactly(p: Pattern, s: string, pos: nat, ends: seq<nat>)
    ensures Match(p, s, pos) == Some(ends)
       <==> IsWay(p, s, pos, ends) && forall w | IsWay(p, s, pos, w) :: !TriedBefore(p, w, ends)
  {
    MatchIsAWay(p, s, pos);
    if Match(p, s, pos) == Some(ends) {
      forall w | IsWay(p, s, pos, w) ensures !TriedBefore(p, w, ends) {
        MatchIsEarliest(p, s, pos, w);
        if ends != w { TriedBeforeAsymmetric(p, ends, w); }
        else if TriedBefore(p, w, ends) { TriedBeforeAsymmetric(p, w, ends); }
      }
    }
    if IsWay(p, s, pos, ends) && (forall w | IsWay(p, s, pos, w) :: !TriedBefore(p, w, ends)) {
      MatchIsEarliest(p, s, pos, ends);
    }
  }

  /** The search fails exactly when there is no way at all. */
  lemma MatchFails(p: Pattern, s: string, pos: nat)
    ensures Match(p, s, pos).None? <==> forall w :: !IsWay(p, s, pos, w)
  {
    MatchIsAWay(p, s, pos);
    forall w | IsWay(p, s, pos, w) ensures Match(p, s, pos).Some? {
      MatchIsEarliest(p, s, pos, w);
    }
  }

  /** The text matched by piece k. */
  function Group(s: string, ends: seq<nat>, k: nat): string
    requires k < |ends| && Start(0, ends, k) <= ends[k] <= |s|
  {
    s[Start(0, ends, k)..ends[k]]
  }
}
