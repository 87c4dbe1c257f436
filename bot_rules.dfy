/**
 * The bot server's board evaluation (`in_bounds`, `would_make_five`, `score_cell`).
 *
 * Both evaluators look at the four DIRECTIONS and, on each, count 1 for the cell itself
 * plus the unbroken run of `sym` forward and the unbroken run backward. Unlike the
 * client's detector, the runs are not capped: they stop only at the board's edge or at
 * the first cell that does not hold `sym`. The cell itself is never read.
 */
module BotRules {
  import opened Basics

  /** A board as the server receives it: a list of rows of strings. */
  type Board = seq<seq<string>>

  /** `DIRECTIONS`, in order: vertical, horizontal, both diagonals. */
  const Directions: seq<Coord> := [(1, 0), (0, 1), (1, 1), (1, -1)]

  /** The boards the evaluators are defined on: 14 rows of 14 cells. */
  predicate IsBoard(b: Board)
  {
    |b| == Size && forall i :: 0 <= i < |b| ==> |b[i]| == Size
  }

  /** `in_bounds(r, c)`. */
  predicate InBounds(r: int, c: int)
  {
    0 <= r < Size && 0 <= c < Size
  }

  function Abs(x: int): nat
  {
    if x < 0 then -x else x
  }

  /** A unit step along a row, a column or a diagonal, in either sense. */
  predicate IsStep(dr: int, dc: int)
  {
    -1 <= dr <= 1 && -1 <= dc <= 1 && (dr != 0 || dc != 0)
  }

  /** Every direction, and its opposite, is a unit step. */
  lemma DirectionsAreSteps(k: nat)
    requires k < |Directions|
    ensures IsStep(Directions[k].0, Directions[k].1) && IsStep(-Directions[k].0, -Directions[k].1)
  {
  }

  /** The loop condition of the run counters: (r, c) is on the board and holds sym. */
  predicate Holds(b: Board, r: int, c: int, sym: string)
    requires IsBoard(b)
  {
    InBounds(r, c) && b[r][c] == sym
  }

  /** A cell i unit steps away from (r, c) can only be on the board while i < 14 + |r| + |c|. */
  lemma StepBound(r: int, c: int, dr: int, dc: int, i: nat)
    requires IsStep(dr, dc) && InBounds(r + dr * i, c + dc * i)
    ensures i < Size + Abs(r) + Abs(c)
  {
    if dr == 1 {
      assert r + i < Size;
    } else if dr == -1 {
      assert r - i >= 0;
    } else if dc == 1 {
      assert c + i < Size;
    } else {
      assert dc == -1 && c - i >= 0;
    }
  }

  /** How many consecutive cells, from step i on along (dr, dc), hold sym (one `while` loop of the evaluators). */
  function Reach(b: Board, r: int, c: int, dr: int, dc: int, sym: string, i: nat): nat
    requires IsBoard(b) && IsStep(dr, dc)
    decreases Size + Abs(r) + Abs(c) - i
  {
    if Holds(b, r + dr * i, c + dc * i, sym) then
      StepBound(r, c, dr, dc, i);
      1 + Reach(b, r, c, dr, dc, sym, i + 1)
    else
      0
  }

  /** `count` (or `run`) after both loops on direction k. */
  function LineCount(b: Board, r: int, c: int, sym: string, k: nat): nat
    requires IsBoard(b) && k < |Directions|
  {
    var (dr, dc) := Directions[k];
    1 + Reach(b, r, c, dr, dc, sym, 1) + Reach(b, r, c, -dr, -dc, sym, 1)
  }

  /** `would_make_five(b, r, c, sym)`: some direction counts five or more. */
  predicate MakesFive(b: Board, r: int, c: int, sym: string)
    requires IsBoard(b)
  {
    exists k :: 0 <= k < |Directions| && LineCount(b, r, c, sym, k) >= 5
  }

  /** `best` after the first k directions of `score_cell`. */
  function BestUpTo(b: Board, r: int, c: int, sym: string, k: nat): nat
    requires IsBoard(b) && k <= |Directions|
  {
    if k == 0 then 0
    else
      var run := LineCount(b, r, c, sym, k - 1);
      var best := BestUpTo(b, r, c, sym, k - 1);
      if best >= run then best else run
  }

  /** `score_cell(b, r, c, sym)`. */
  function Score(b: Board, r: int, c: int, sym: string): nat
    requires IsBoard(b)
  {
    BestUpTo(b, r, c, sym, |Directions|)
  }

  /** After k directions, `best` is the largest count seen so far (0 before any). */
  lemma {:induction false} BestUpToIsMax(b: Board, r: int, c: int, sym: string, k: nat)
    requires IsBoard(b) && k <= |Directions|
    ensures forall j :: 0 <= j < k ==> LineCount(b, r, c, sym, j) <= BestUpTo(b, r, c, sym, k)
    ensures k == 0 ==> BestUpTo(b, r, c, sym, k) == 0
    ensures k > 0 ==> exists j :: 0 <= j < k && BestUpTo(b, r, c, sym, k) == LineCount(b, r, c, sym, j)
  {
    if k > 0 {
      BestUpToIsMax(b, r, c, sym, k - 1);
      if k - 1 > 0 && BestUpTo(b, r, c, sym, k) != LineCount(b, r, c, sym, k - 1) {
        var j :| 0 <= j < k - 1 && BestUpTo(b, r, c, sym, k - 1) == LineCount(b, r, c, sym, j);
        assert BestUpTo(b, r, c, sym, k) == LineCount(b, r, c, sym, j);
      }
    }
  }

  /** `score_cell` is the largest of the four direction counts. */
  lemma ScoreIsMax(b: Board, r: int, c: int, sym: string)
    requires IsBoard(b)
    ensures forall k :: 0 <= k < |Directions| ==> LineCount(b, r, c, sym, k) <= Score(b, r, c, sym)
    ensures exists k :: 0 <= k < |Directions| && Score(b, r, c, sym) == LineCount(b, r, c, sym, k)
  {
    BestUpToIsMax(b, r, c, sym, |Directions|);
  }

  /** `would_make_five(b, r, c, sym)` holds exactly when `score_cell(b, r, c, sym) >= 5`. */
  lemma MakesFiveIffScore(b: Board, r: int, c: int, sym: string)
    requires IsBoard(b)
    ensures MakesFive(b, r, c, sym) <==> Score(b, r, c, sym) >= 5
  {
    ScoreIsMax(b, r, c, sym);
    if Score(b, r, c, sym) >= 5 {
      var k :| 0 <= k < |Directions| && Score(b, r, c, sym) == LineCount(b, r, c, sym, k);
      assert LineCount(b, r, c, sym, k) >= 5;
    }
  }

  /** Every cell a run counts is on the board and holds sym. */
  lemma {:induction false} ReachCellsHold(b: Board, r: int, c: int, dr: int, dc: int, sym: string, i: nat, t: nat)
    requires IsBoard(b) && IsStep(dr, dc)
    requires i <= t < i + Reach(b, r, c, dr, dc, sym, i)
    ensures Holds(b, r + dr * t, c + dc * t, sym)
    decreases t - i
  {
    if t > i {
      ReachCellsHold(b, r, c, dr, dc, sym, i + 1, t);
    }
  }

  /** From a cell on the board, a line's forward and backward runs cover at most the other 13 cells of a row, column or diagonal. */
  lemma LineCountBound(b: Board, r: int, c: int, sym: string, k: nat)
    requires IsBoard(b) && InBounds(r, c) && k < |Directions|
    ensures 1 <= LineCount(b, r, c, sym, k) <= Size
  {
    var (dr, dc) := Directions[k];
    DirectionsAreSteps(k);
    var f := Reach(b, r, c, dr, dc, sym, 1);
    var g := Reach(b, r, c, -dr, -dc, sym, 1);
    if f > 0 {
      ReachCellsHold(b, r, c, dr, dc, sym, 1, f);
    }
    if g > 0 {
      ReachCellsHold(b, r, c, -dr, -dc, sym, 1, g);
    }
    SpanBound(r, c, dr, dc, f, g);
  }

  /** When the cells f steps forward and g steps backward from (r, c) are on the board, f + g < 14. */
  lemma SpanBound(r: int, c: int, dr: int, dc: int, f: nat, g: nat)
    requires IsStep(dr, dc) && InBounds(r, c)
    requires f == 0 || InBounds(r + dr * f, c + dc * f)
    requires g == 0 || InBounds(r + (-dr) * g, c + (-dc) * g)
    ensures f + g < Size
  {
    if dr == 1 {
      assert r + f < Size && r - g >= 0;
    } else if dr == -1 {
      assert r - f >= 0 && r + g < Size;
    } else if dc == 1 {
      assert c + f < Size && c - g >= 0;
    } else {
      assert dc == -1 && c - f >= 0 && c + g < Size;
    }
  }

  /** For a cell on the board, `score_cell` is between 1 and 14. */
  lemma ScoreRange(b: Board, r: int, c: int, sym: string)
    requires IsBoard(b) && InBounds(r, c)
    ensures 1 <= Score(b, r, c, sym) <= Size
  {
    ScoreIsMax(b, r, c, sym);
    LineCountBound(b, r, c, sym, 0);
    forall k | 0 <= k < |Directions|
      ensures LineCount(b, r, c, sym, k) <= Size
    {
      LineCountBound(b, r, c, sym, k);
    }
  }

  /** A run from step i >= 1 never reads (r, c): writing anything there leaves it unchanged. */
  lemma {:induction false} ReachIgnoresOrigin(b: Board, r: int, c: int, dr: int, dc: int, sym: string, i: nat, x: string)
    requires IsBoard(b) && IsStep(dr, dc) && InBounds(r, c) && i >= 1
    ensures IsBoard(b[r := b[r][c := x]])
    ensures Reach(b[r := b[r][c := x]], r, c, dr, dc, sym, i) == Reach(b, r, c, dr, dc, sym, i)
    decreases Size + Abs(r) + Abs(c) - i
  {
    var b' := b[r := b[r][c := x]];
    assert (r + dr * i, c + dc * i) != (r, c) by {
      if dr != 0 {
        assert dr * i != 0;
      } else {
        assert dc * i != 0;
      }
    }
    if Holds(b, r + dr * i, c + dc * i, sym) {
      StepBound(r, c, dr, dc, i);
      ReachIgnoresOrigin(b, r, c, dr, dc, sym, i + 1, x);
    }
  }

  /** `score_cell` and `would_make_five` do not read b[r][c]: they hold for the stone-to-be whatever the cell holds. */
  lemma ScoreIgnoresOrigin(b: Board, r: int, c: int, sym: string, x: string)
    requires IsBoard(b) && InBounds(r, c)
    ensures IsBoard(b[r := b[r][c := x]])
    ensures Score(b[r := b[r][c := x]], r, c, sym) == Score(b, r, c, sym)
    ensures MakesFive(b[r := b[r][c := x]], r, c, sym) <==> MakesFive(b, r, c, sym)
  {
    var b' := b[r := b[r][c := x]];
    forall k | 0 <= k < |Directions|
      ensures LineCount(b', r, c, sym, k) == LineCount(b, r, c, sym, k)
    {
      DirectionsAreSteps(k);
      var (dr, dc) := Directions[k];
      ReachIgnoresOrigin(b, r, c, dr, dc, sym, 1, x);
      ReachIgnoresOrigin(b, r, c, -dr, -dc, sym, 1, x);
    }
    assert BestUpTo(b', r, c, sym, 1) == BestUpTo(b, r, c, sym, 1);
    assert BestUpTo(b', r, c, sym, 2) == BestUpTo(b, r, c, sym, 2);
    assert BestUpTo(b', r, c, sym, 3) == BestUpTo(b, r, c, sym, 3);
  }

  /**
   * One `while` loop of the evaluators: starting from `count0`, adds one per consecutive
   * cell along (dr, dc) that is on the board and holds sym.
   */
  method ExtendRun(b: Board, r: int, c: int, dr: int, dc: int, sym: string, count0: int) returns (count: int)
    requires IsBoard(b) && IsStep(dr, dc)
    ensures count == count0 + Reach(b, r, c, dr, dc, sym, 1)
  {
    count := count0;
    var i := 1;
    while InBounds(r + dr * i, c + dc * i) && b[r + dr * i][c + dc * i] == sym
      invariant i >= 1
      invariant count0 + Reach(b, r, c, dr, dc, sym, 1) == count + Reach(b, r, c, dr, dc, sym, i)
      decreases Size + Abs(r) + Abs(c) - i
    {
      StepBound(r, c, dr, dc, i);
      count := count + 1;
      i := i + 1;
    }
  }

  /** `would_make_five`: returns on the first direction that counts five. */
  method WouldMakeFive(b: Board, r: int, c: int, sym: string) returns (five: bool)
    requires IsBoard(b)
    ensures five == MakesFive(b, r, c, sym)
  {
    var k := 0;
    while k < |Directions|
      invariant 0 <= k <= |Directions|
      invariant forall j :: 0 <= j < k ==> LineCount(b, r, c, sym, j) < 5
    {
      var (dr, dc) := Directions[k];
      DirectionsAreSteps(k);
      var count := ExtendRun(b, r, c, dr, dc, sym, 1);
      count := ExtendRun(b, r, c, -dr, -dc, sym, count);
      if count >= 5 {
        assert LineCount(b, r, c, sym, k) >= 5;
        return true;
      }
      k := k + 1;
    }
    return false;
  }

  /** `score_cell`: the longest of the four runs through (r, c). */
  method ScoreCell(b: Board, r: int, c: int, sym: string) returns (best: int)
    requires IsBoard(b)
    ensures best == Score(b, r, c, sym)
  {
    best := 0;
    var k := 0;
    while k < |Directions|
      invariant 0 <= k <= |Directions|
      invariant best == BestUpTo(b, r, c, sym, k)
    {
      var (dr, dc) := Directions[k];
      DirectionsAreSteps(k);
      var run := ExtendRun(b, r, c, dr, dc, sym, 1);
      run := ExtendRun(b, r, c, -dr, -dc, sym, run);
      best := if best >= run then best else run;
      k := k + 1;
    }
  }
}
