/**
 * The five-in-a-row detector of the Wi-Fi screen (`checkWinWifi`).
 *
 * Given the board, a symbol and the cell just played, it tries four axes in a fixed
 * order; on each it walks at most four cells forward and at most four backward while
 * the cells are on the board and hold the symbol. The first axis on which
 * 1 + forward + backward reaches five is returned as a list of coordinates: the origin,
 * then the forward cells by distance, then the backward cells by distance.
 * The origin itself is never bounds-checked nor compared with the symbol.
 */
module WinCheck {
  import opened Basics

  /** The axes in the order the detector tries them: horizontal, vertical, both diagonals. */
  const Axes: seq<Coord> := [(0, 1), (1, 0), (1, 1), (1, -1)]

  /** Each direction of an axis is extended by at most this many cells (`for (i in 1 until 5)`). */
  const MaxSteps: nat := 4

  /** The detector indexes `board[nr][nc]` with both coordinates below `board.size`. */
  predicate Square(board: array2<string>)
  {
    board.Length0 == board.Length1
  }

  /** Cell (nr, nc) is on the board and holds `symbol`. */
  predicate Matches(board: array2<string>, symbol: string, nr: int, nc: int)
    requires Square(board)
    reads board
  {
    0 <= nr < board.Length0 && 0 <= nc < board.Length0 && board[nr, nc] == symbol
  }

  /** How many consecutive cells, from step i on along (dr, dc), match before the first miss or step MaxSteps. */
  function Run(board: array2<string>, symbol: string, r: int, c: int, dr: int, dc: int, i: nat): (n: nat)
    requires Square(board)
    reads board
    ensures i <= MaxSteps + 1 ==> n <= MaxSteps + 1 - i
    ensures i > MaxSteps ==> n == 0
    decreases MaxSteps + 1 - i
  {
    if i <= MaxSteps && Matches(board, symbol, r + dr * i, c + dc * i) then
      1 + Run(board, symbol, r, c, dr, dc, i + 1)
    else
      0
  }

  /** The first n cells after (r, c) along (dr, dc), nearest first. */
  function Ray(r: int, c: int, dr: int, dc: int, n: nat): (cells: seq<Coord>)
    ensures |cells| == n
  {
    if n == 0 then [] else Ray(r, c, dr, dc, n - 1) + [(r + dr * n, c + dc * n)]
  }

  /** Cell t of a ray is t + 1 steps from (r, c): the cells are listed nearest first. */
  lemma {:induction false} RayCell(r: int, c: int, dr: int, dc: int, n: nat, t: nat)
    requires t < n
    ensures Ray(r, c, dr, dc, n)[t] == (r + dr * (t + 1), c + dc * (t + 1))
  {
    if t < n - 1 {
      RayCell(r, c, dr, dc, n - 1, t);
    }
  }

  /** `count` on axis k: the origin plus the forward and backward runs. */
  function AxisCount(board: array2<string>, symbol: string, r: int, c: int, k: nat): nat
    requires Square(board) && k < |Axes|
    reads board
  {
    var (dr, dc) := Axes[k];
    1 + Run(board, symbol, r, c, dr, dc, 1) + Run(board, symbol, r, c, -dr, -dc, 1)
  }

  /** `lineCoords` on axis k: origin, forward cells, backward cells. */
  function AxisLine(board: array2<string>, symbol: string, r: int, c: int, k: nat): seq<Coord>
    requires Square(board) && k < |Axes|
    reads board
  {
    var (dr, dc) := Axes[k];
    [(r, c)] + Ray(r, c, dr, dc, Run(board, symbol, r, c, dr, dc, 1))
             + Ray(r, c, -dr, -dc, Run(board, symbol, r, c, -dr, -dc, 1))
  }

  /** The line of the first axis, from k on, whose count reaches five. */
  function FirstWin(board: array2<string>, symbol: string, r: int, c: int, k: nat): Option<seq<Coord>>
    requires Square(board) && k <= |Axes|
    reads board
    decreases |Axes| - k
  {
    if k == |Axes| then None
    else if AxisCount(board, symbol, r, c, k) >= 5 then Some(AxisLine(board, symbol, r, c, k))
    else FirstWin(board, symbol, r, c, k + 1)
  }

  /** What `checkWinWifi(board, symbol, r, c)` returns. */
  function WinLine(board: array2<string>, symbol: string, r: int, c: int): Option<seq<Coord>>
    requires Square(board)
    reads board
  {
    if symbol == "" then None else FirstWin(board, symbol, r, c, 0)
  }

  /** Every cell a run counts is on the board and holds the symbol. */
  lemma {:induction false} RunCellsMatch(board: array2<string>, symbol: string, r: int, c: int,
                                         dr: int, dc: int, i: nat, t: nat)
    requires Square(board)
    requires i <= t < i + Run(board, symbol, r, c, dr, dc, i)
    ensures Matches(board, symbol, r + dr * t, c + dc * t)
    decreases t - i
  {
    if t > i {
      RunCellsMatch(board, symbol, r, c, dr, dc, i + 1, t);
    }
  }

  /**
   * The line of an axis has as many cells as its count (1 to 9), starts at the origin,
   * lists the forward cells and then the backward cells by increasing distance (Ray), and
   * every cell after the origin is on the board and holds the symbol.
   */
  lemma AxisLineShape(board: array2<string>, symbol: string, r: int, c: int, k: nat)
    requires Square(board) && k < |Axes|
    ensures var line := AxisLine(board, symbol, r, c, k);
            var (dr, dc) := Axes[k];
            var f := Run(board, symbol, r, c, dr, dc, 1);
            var g := Run(board, symbol, r, c, -dr, -dc, 1);
            && |line| == AxisCount(board, symbol, r, c, k) == 1 + f + g
            && 1 <= |line| <= 1 + 2 * MaxSteps
            && line[0] == (r, c)
            && line[1..1 + f] == Ray(r, c, dr, dc, f)
            && line[1 + f..] == Ray(r, c, -dr, -dc, g)
            && (forall t :: 1 <= t < |line| ==> Matches(board, symbol, line[t].0, line[t].1))
  {
    var (dr, dc) := Axes[k];
    var f := Run(board, symbol, r, c, dr, dc, 1);
    var g := Run(board, symbol, r, c, -dr, -dc, 1);
    var fwd, bwd := Ray(r, c, dr, dc, f), Ray(r, c, -dr, -dc, g);
    var line := AxisLine(board, symbol, r, c, k);
    assert line == [(r, c)] + fwd + bwd;
    assert line[1..1 + f] == fwd;
    assert line[1 + f..] == bwd;
    forall t | 1 <= t < |line|
      ensures Matches(board, symbol, line[t].0, line[t].1)
    {
      if t <= f {
        assert line[t] == fwd[t - 1];
        RayMatches(board, symbol, r, c, dr, dc, t - 1);
      } else {
        assert line[t] == bwd[t - f - 1];
        RayMatches(board, symbol, r, c, -dr, -dc, t - f - 1);
      }
    }
  }

  /** Cell t of a walk's ray is on the board and holds the symbol. */
  lemma RayMatches(board: array2<string>, symbol: string, r: int, c: int, dr: int, dc: int, t: nat)
    requires Square(board) && t < Run(board, symbol, r, c, dr, dc, 1)
    ensures var cell := Ray(r, c, dr, dc, Run(board, symbol, r, c, dr, dc, 1))[t];
            Matches(board, symbol, cell.0, cell.1)
  {
    RunCellsMatch(board, symbol, r, c, dr, dc, 1, t + 1);
    RayCell(r, c, dr, dc, Run(board, symbol, r, c, dr, dc, 1), t);
  }

  /** FirstWin is None exactly when no remaining axis reaches five. */
  lemma {:induction false} FirstWinNone(board: array2<string>, symbol: string, r: int, c: int, k: nat)
    requires Square(board) && k <= |Axes|
    ensures FirstWin(board, symbol, r, c, k).None?
            <==> forall j :: k <= j < |Axes| ==> AxisCount(board, symbol, r, c, j) < 5
    decreases |Axes| - k
  {
    if k < |Axes| && AxisCount(board, symbol, r, c, k) < 5 {
      FirstWinNone(board, symbol, r, c, k + 1);
    }
  }

  /** A line FirstWin returns is that of the first remaining axis reaching five. */
  lemma {:induction false} FirstWinIsFirst(board: array2<string>, symbol: string, r: int, c: int, k: nat)
    requires Square(board) && k <= |Axes|
    ensures FirstWin(board, symbol, r, c, k).Some? ==>
              exists j :: k <= j < |Axes| && AxisCount(board, symbol, r, c, j) >= 5
                          && FirstWin(board, symbol, r, c, k).value == AxisLine(board, symbol, r, c, j)
                          && forall i :: k <= i < j ==> AxisCount(board, symbol, r, c, i) < 5
    decreases |Axes| - k
  {
    if k < |Axes| {
      if AxisCount(board, symbol, r, c, k) >= 5 {
        assert FirstWin(board, symbol, r, c, k) == Some(AxisLine(board, symbol, r, c, k));
      } else {
        FirstWinIsFirst(board, symbol, r, c, k + 1);
        assert FirstWin(board, symbol, r, c, k) == FirstWin(board, symbol, r, c, k + 1);
      }
    }
  }

  /**
   * The contract of `checkWinWifi`: no line for the empty symbol; otherwise a line exactly
   * when some axis counts at least five, namely that of the first such axis in the order of
   * Axes; a returned line has 5 to 9 cells, starts at the origin, and every later cell is on
   * the board and holds the symbol.
   */
  lemma WinLineSpec(board: array2<string>, symbol: string, r: int, c: int)
    requires Square(board)
    ensures symbol == "" ==> WinLine(board, symbol, r, c).None?
    ensures WinLine(board, symbol, r, c).None?
            <==> symbol == "" || forall k :: 0 <= k < |Axes| ==> AxisCount(board, symbol, r, c, k) < 5
    ensures WinLine(board, symbol, r, c).Some? ==>
              exists k :: 0 <= k < |Axes| && AxisCount(board, symbol, r, c, k) >= 5
                          && WinLine(board, symbol, r, c).value == AxisLine(board, symbol, r, c, k)
                          && forall j :: 0 <= j < k ==> AxisCount(board, symbol, r, c, j) < 5
    ensures WinLine(board, symbol, r, c).Some? ==>
              var line := WinLine(board, symbol, r, c).value;
              && 5 <= |line| <= 1 + 2 * MaxSteps
              && line[0] == (r, c)
              && forall t :: 1 <= t < |line| ==> Matches(board, symbol, line[t].0, line[t].1)
  {
    if symbol != "" {
      FirstWinNone(board, symbol, r, c, 0);
      FirstWinIsFirst(board, symbol, r, c, 0);
      if WinLine(board, symbol, r, c).Some? {
        var k :| 0 <= k < |Axes| && AxisCount(board, symbol, r, c, k) >= 5
                 && WinLine(board, symbol, r, c).value == AxisLine(board, symbol, r, c, k);
        AxisLineShape(board, symbol, r, c, k);
      }
    }
  }

  /**
   * One of the two inner loops of `checkWinWifi`: walks up to MaxSteps cells from (r, c)
   * along (dr, dc) while they match, appending each to `line`; `steps` is how many it added.
   */
  method Walk(board: array2<string>, symbol: string, r: int, c: int, dr: int, dc: int, line0: seq<Coord>)
    returns (line: seq<Coord>, steps: nat)
    requires Square(board)
    ensures steps == Run(board, symbol, r, c, dr, dc, 1)
    ensures line == line0 + Ray(r, c, dr, dc, steps)
  {
    var boardSize := board.Length0;
    line := line0;
    steps := 0;
    var i := 1;
    while i < 5
      invariant 1 <= i <= 5
      invariant steps == i - 1
      invariant line == line0 + Ray(r, c, dr, dc, i - 1)
      invariant Run(board, symbol, r, c, dr, dc, 1) == i - 1 + Run(board, symbol, r, c, dr, dc, i)
    {
      var nr := r + dr * i;
      var nc := c + dc * i;
      if 0 <= nr < boardSize && 0 <= nc < boardSize && board[nr, nc] == symbol {
        steps := steps + 1;
        line := line + [(nr, nc)];
      } else {
        break;
      }
      i := i + 1;
    }
  }

  /** `checkWinWifi`: the board is only read (no modifies clause). */
  method CheckWinWifi(board: array2<string>, symbol: string, r: int, c: int) returns (line: Option<seq<Coord>>)
    requires Square(board)
    ensures line == WinLine(board, symbol, r, c)
  {
    if symbol == "" {
      return None;
    }
    var d := 0;
    while d < |Axes|
      invariant 0 <= d <= |Axes|
      invariant FirstWin(board, symbol, r, c, 0) == FirstWin(board, symbol, r, c, d)
    {
      var count, lineCoords := ScanAxis(board, symbol, r, c, d);
      if count >= 5 {
        return Some(lineCoords);
      }
      d := d + 1;
    }
    return None;
  }

  /** The body of the outer loop of `checkWinWifi`: `count` and `lineCoords` for axis d. */
  method ScanAxis(board: array2<string>, symbol: string, r: int, c: int, d: nat) returns (count: nat, lineCoords: seq<Coord>)
    requires Square(board) && d < |Axes|
    ensures count == AxisCount(board, symbol, r, c, d)
    ensures lineCoords == AxisLine(board, symbol, r, c, d)
  {
    var (dr, dc) := Axes[d];
    count := 1;
    lineCoords := [(r, c)];
    var forward, backward;
    lineCoords, forward := Walk(board, symbol, r, c, dr, dc, lineCoords);
    count := count + forward;
    lineCoords, backward := Walk(board, symbol, r, c, -dr, -dc, lineCoords);
    count := count + backward;
  }
}
