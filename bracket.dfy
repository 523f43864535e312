/** Brackets and the append-only bracket-depth log (bracket.go). */
module Brackets {

  /** A bracket value: the two parentheses, or any other value of the
      underlying integer type (such as its zero value). */
  datatype Bracket = LeftParen | RightParen | Undefined {

    function String(): (s: string)
      ensures s == "(" <==> this == LeftParen
      ensures s == ")" <==> this == RightParen
      ensures s == "" <==> this == Undefined
    {
      match this
      case LeftParen => "("
      case RightParen => ")"
      case Undefined => ""
    }

    predicate IsLeft() {
      this == LeftParen
    }

    predicate IsRight() {
      this == RightParen
    }
  }

  /** Each side test picks out one parenthesis, and no bracket is both. */
  lemma BracketSides(b: Bracket)
    ensures b.IsLeft() <==> b == LeftParen
    ensures b.IsRight() <==> b == RightParen
    ensures !(b.IsLeft() && b.IsRight())
  {
  }

  /** One log entry: the rune index of a bracket, the depth after it, and
      the bracket itself. */
  datatype BracketDepth = BracketDepth(index: int, depth: int, b: Bracket)

  /** The current depth: 0 for an empty log, else the depth of the last entry. */
  function LogDepth(log: seq<BracketDepth>): int {
    if |log| == 0 then 0 else log[|log| - 1].depth
  }

  class BracketStack {
    var stack: seq<BracketDepth>

    constructor ()
      ensures stack == []
    {
      stack := [];
    }

    function Depth(): int
      reads this
    {
      LogDepth(stack)
    }

    /** Records an opening bracket one level deeper than the current depth. */
    method Increment(idx: int, b: Bracket)
      modifies this
      ensures stack == old(stack) + [BracketDepth(idx, old(Depth()) + 1, b)]
      ensures Depth() == old(Depth()) + 1
      ensures Tagged(old(stack)) && b.IsLeft() ==> Tagged(stack)
    {
      stack := stack + [BracketDepth(idx, Depth() + 1, b)];
      assert stack[..|stack| - 1] == old(stack);
    }

    /** Records a closing bracket one level shallower than the current depth. */
    method Decrement(idx: int, b: Bracket)
      modifies this
      ensures stack == old(stack) + [BracketDepth(idx, old(Depth()) - 1, b)]
      ensures Depth() == old(Depth()) - 1
      ensures Tagged(old(stack)) && !b.IsLeft() ==> Tagged(stack)
    {
      stack := stack + [BracketDepth(idx, Depth() - 1, b)];
      assert stack[..|stack| - 1] == old(stack);
    }

    method Clear()
      modifies this
      ensures stack == [] && Depth() == 0
    {
      stack := [];
    }
  }

  /** +1 for an opening bracket, -1 for any other. */
  function Delta(b: Bracket): int {
    if b.IsLeft() then 1 else -1
  }

  /** The log was built by `Increment` on opening brackets and `Decrement`
      on all others, starting from empty. */
  ghost predicate Tagged(log: seq<BracketDepth>)
    decreases |log|
  {
    |log| == 0 ||
    (Tagged(log[..|log| - 1]) && log[|log| - 1].depth == LogDepth(log[..|log| - 1]) + Delta(log[|log| - 1].b))
  }

  /** The number of opening entries: all of them when every entry opens,
      none when no entry does. */
  function OpenCount(log: seq<BracketDepth>): (n: nat)
    ensures n <= |log|
    ensures (forall k :: 0 <= k < |log| ==> log[k].b.IsLeft()) ==> n == |log|
    ensures (forall k :: 0 <= k < |log| ==> !log[k].b.IsLeft()) ==> n == 0
    decreases |log|
  {
    if |log| == 0 then 0
    else OpenCount(log[..|log| - 1]) + (if log[|log| - 1].b.IsLeft() then 1 else 0)
  }

  /** The current depth is the number of opening entries minus the number
      of closing ones. */
  lemma {:induction false} DepthCountsBrackets(log: seq<BracketDepth>)
    requires Tagged(log)
    ensures LogDepth(log) == OpenCount(log) - (|log| - OpenCount(log))
    decreases |log|
  {
    if |log| > 0 {
      DepthCountsBrackets(log[..|log| - 1]);
    }
  }

  /** Adjacent entries of a tagged log differ in depth by exactly one. */
  lemma {:induction false} AdjacentDepths(log: seq<BracketDepth>, k: int)
    requires Tagged(log)
    requires 0 < k < |log|
    ensures log[k].depth - log[k - 1].depth == Delta(log[k].b)
    ensures log[k].depth == log[k - 1].depth + 1 || log[k].depth == log[k - 1].depth - 1
    decreases |log|
  {
    var p := log[..|log| - 1];
    if k < |log| - 1 {
      AdjacentDepths(p, k);
      assert p[k] == log[k] && p[k - 1] == log[k - 1];
    } else {
      assert LogDepth(p) == log[k - 1].depth;
    }
  }

  /** The backward scan of the end-of-input check: the latest position
      below `n` whose entry has depth `d`, or -1. */
  function LatestAtDepth(log: seq<BracketDepth>, d: int, n: nat): (k: int)
    requires n <= |log|
    ensures -1 <= k < n
    ensures k >= 0 ==> log[k].depth == d
    ensures forall j :: k < j < n ==> log[j].depth != d
    decreases n
  {
    if n == 0 then -1
    else if log[n - 1].depth == d then n - 1
    else LatestAtDepth(log, d, n - 1)
  }

  /** Scanning for the current depth always stops at the last entry, whatever
      kind of bracket it holds. */
  lemma ScanStopsAtLast(log: seq<BracketDepth>)
    requires |log| > 0
    ensures LatestAtDepth(log, LogDepth(log), |log|) == |log| - 1
  {
  }

  /** "((5)": two openings and one closing leave depth 1, and the scan
      reports the closing bracket at index 3, not an opening bracket. */
  lemma ScanReportsClosingBracket()
    ensures var log := [BracketDepth(0, 1, LeftParen), BracketDepth(1, 2, LeftParen), BracketDepth(3, 1, RightParen)];
      Tagged(log) && LogDepth(log) == 1 &&
      log[LatestAtDepth(log, LogDepth(log), |log|)] == BracketDepth(3, 1, RightParen)
  {
    var log := [BracketDepth(0, 1, LeftParen), BracketDepth(1, 2, LeftParen), BracketDepth(3, 1, RightParen)];
    assert log[..2][..1] == [log[0]];
    assert log[..2] == [log[0], log[1]];
    assert Tagged(log[..1]);
    assert Tagged(log[..2]);
  }

  /** The latest opening entry below `n` whose depth is `d`, or -1. */
  function LatestOpenAtDepth(log: seq<BracketDepth>, d: int, n: nat): (k: int)
    requires n <= |log|
    ensures -1 <= k < n
    ensures k >= 0 ==> log[k].b.IsLeft() && log[k].depth == d
    ensures forall j :: k < j < n ==> !(log[j].b.IsLeft() && log[j].depth == d)
    decreases n
  {
    if n == 0 then -1
    else if log[n - 1].b.IsLeft() && log[n - 1].depth == d then n - 1
    else LatestOpenAtDepth(log, d, n - 1)
  }

  /** The innermost opening bracket still open: the latest opening entry
      whose depth is the current depth. */
  function InnermostOpen(log: seq<BracketDepth>): (k: int)
    ensures -1 <= k < |log|
  {
    LatestOpenAtDepth(log, LogDepth(log), |log|)
  }

  /** Entry `k` opened level `d` and the depth never fell below `d` after it. */
  ghost predicate StillOpen(log: seq<BracketDepth>, k: int, d: int)
    requires 0 <= k < |log|
  {
    log[k].b.IsLeft() && log[k].depth == d &&
    forall j :: k < j < |log| ==> log[j].depth >= d
  }

  /** Every level between 1 and the current depth was opened by an entry
      that has not been closed since. */
  lemma {:induction false} LevelsStillOpen(log: seq<BracketDepth>, d: int)
    requires Tagged(log)
    requires 1 <= d <= LogDepth(log)
    ensures exists k :: 0 <= k < |log| && StillOpen(log, k, d)
    decreases |log|
  {
    var n := |log|;
    var p := log[..n - 1];
    var e := log[n - 1];
    if e.b.IsLeft() && d == LogDepth(log) {
      assert StillOpen(log, n - 1, d);
    } else {
      LevelsStillOpen(p, d);
      var k :| 0 <= k < |p| && StillOpen(p, k, d);
      assert log[k] == p[k];
      forall j | k < j < n ensures log[j].depth >= d {
        if j < n - 1 { assert log[j] == p[j]; }
      }
      assert StillOpen(log, k, d);
    }
  }

  /** With a positive depth, the innermost open bracket exists, is an opening
      bracket at the current depth, and no later entry closed it. */
  lemma InnermostOpenIsUnclosed(log: seq<BracketDepth>)
    requires Tagged(log)
    requires LogDepth(log) > 0
    ensures 0 <= InnermostOpen(log)
    ensures StillOpen(log, InnermostOpen(log), LogDepth(log))
  {
    LevelsStillOpen(log, LogDepth(log));
    var w :| 0 <= w < |log| && StillOpen(log, w, LogDepth(log));
    var k := InnermostOpen(log);
    assert w <= k;
  }

  /** On the "((5)" log the innermost open bracket is the one at index 0. */
  lemma InnermostOpenOfExample()
    ensures var log := [BracketDepth(0, 1, LeftParen), BracketDepth(1, 2, LeftParen), BracketDepth(3, 1, RightParen)];
      log[InnermostOpen(log)] == BracketDepth(0, 1, LeftParen)
  {
  }
}
