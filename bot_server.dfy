/**
 * The bot server's endpoints: `/game/next-move`, `/game/first-move`,
 * `/game/announce-symbol` and `/game/choose`.
 *
 * `random.randint` and `random.choice` are parameters: an index `oracle` or `pick`
 * reduced modulo the length of the list chosen from, and the sequence `draws` of
 * cells the rejection loop of `first_move` draws from, in order.
 */
module BotServer {
  import opened Basics
  import opened BotRules

  /** An endpoint's JSON reply, or the `HTTPException` it raises. */
  datatype Response<T> = Ok(value: T) | HttpError(status: int)

  /** `/game/first-move`'s reply. */
  datatype Opening = Opening(opponentName: string, moves: seq<Move>)

  /** The module-level `bot_symbol`: nothing ever rebinds it (see BotSession). */
  const BotSymbol: string := "X"

  /** Cell p is strictly before cell q in row-major order. */
  predicate Before(p: Coord, q: Coord)
  {
    p.0 < q.0 || (p.0 == q.0 && p.1 < q.1)
  }

  /** The cells are listed in strictly increasing row-major order. */
  predicate RowMajor(cells: seq<Coord>)
  {
    forall i, j :: 0 <= i < j < |cells| ==> Before(cells[i], cells[j])
  }

  /** Cell p is on the board and holds "". */
  predicate Empty(b: Board, p: Coord)
    requires IsBoard(b)
  {
    InBounds(p.0, p.1) && b[p.0][p.1] == ""
  }

  /** `itertools.product(range(SIZE), range(SIZE))`. */
  function AllCells(): seq<Coord>
  {
    seq(Size * Size, k => (k / Size, k % Size))
  }

  /** The product lists every cell on the board (those `in_bounds` accepts) and no other, in row-major order. */
  lemma AllCellsSpec()
    ensures forall p :: p in AllCells() <==> InBounds(p.0, p.1)
    ensures RowMajor(AllCells())
  {
    var cells := AllCells();
    forall p: Coord | InBounds(p.0, p.1)
      ensures p in cells
    {
      var k := p.0 * Size + p.1;
      assert cells[k] == p;
    }
    forall i, j | 0 <= i < j < |cells|
      ensures Before(cells[i], cells[j])
    {
      DivModOrder(i, j);
    }
  }

  /** Row-major positions i < j have (i / 14, i % 14) before (j / 14, j % 14). */
  lemma DivModOrder(i: nat, j: nat)
    requires i < j
    ensures i / Size < j / Size || (i / Size == j / Size && i % Size < j % Size)
  {
    var qi, ri := i / Size, i % Size;
    var qj, rj := j / Size, j % Size;
    assert i == qi * Size + ri && j == qj * Size + rj;
  }

  /** The cells among `cells` that hold "", in their order. */
  function EmptyAmong(b: Board, cells: seq<Coord>): (e: seq<Coord>)
    requires IsBoard(b) && forall p :: p in cells ==> InBounds(p.0, p.1)
    ensures forall p :: p in e <==> p in cells && Empty(b, p)
    ensures RowMajor(cells) ==> RowMajor(e)
  {
    if cells == [] then []
    else
      var rest := EmptyAmong(b, cells[1..]);
      assert RowMajor(cells) ==> forall q :: q in rest ==> Before(cells[0], q);
      if Empty(b, cells[0]) then [cells[0]] + rest else rest
  }

  /** `empties`: every empty cell of the board, in row-major order. */
  function Empties(b: Board): (e: seq<Coord>)
    requires IsBoard(b)
    ensures forall p :: p in e <==> Empty(b, p)
    ensures RowMajor(e)
  {
    AllCellsSpec();
    EmptyAmong(b, AllCells())
  }

  /** The first cell of `cells` where `would_make_five` holds for sym (one `for` loop of `next_move`). */
  function FirstFive(b: Board, cells: seq<Coord>, sym: string): (r: Option<Coord>)
    requires IsBoard(b)
    ensures r.None? <==> forall p :: p in cells ==> !MakesFive(b, p.0, p.1, sym)
    ensures r.Some? ==> exists i :: 0 <= i < |cells| && cells[i] == r.value && MakesFive(b, r.value.0, r.value.1, sym)
                                    && forall j :: 0 <= j < i ==> !MakesFive(b, cells[j].0, cells[j].1, sym)
  {
    if cells == [] then None
    else if MakesFive(b, cells[0].0, cells[0].1, sym) then Some(cells[0])
    else
      var r := FirstFive(b, cells[1..], sym);
      assert forall p :: p in cells ==> p == cells[0] || p in cells[1..];
      assert r.Some? ==> exists i :: 0 <= i < |cells| && cells[i] == r.value
                                     && forall j :: 0 <= j < i ==> !MakesFive(b, cells[j].0, cells[j].1, sym) by {
        if r.Some? {
          var i :| 0 <= i < |cells[1..]| && cells[1..][i] == r.value
                   && forall j :: 0 <= j < i ==> !MakesFive(b, cells[1..][j].0, cells[1..][j].1, sym);
          assert cells[i + 1] == r.value;
          assert forall j :: 0 <= j < i + 1 ==> !MakesFive(b, cells[j].0, cells[j].1, sym);
        }
      }
      r
  }

  /** `max_score`: the largest `score_cell` for sym over a non-empty list of cells. */
  function MaxScore(b: Board, cells: seq<Coord>, sym: string): (m: nat)
    requires IsBoard(b) && |cells| > 0
    ensures forall p :: p in cells ==> Score(b, p.0, p.1, sym) <= m
    ensures exists p :: p in cells && Score(b, p.0, p.1, sym) == m
  {
    var s := Score(b, cells[0].0, cells[0].1, sym);
    if |cells| == 1 then s
    else
      var m := MaxScore(b, cells[1..], sym);
      assert forall p :: p in cells ==> p == cells[0] || p in cells[1..];
      if s >= m then s else m
  }

  /** `best_moves`: the cells of `cells` whose score for sym is m, in their order. */
  function ScoringAmong(b: Board, cells: seq<Coord>, sym: string, m: nat): (best: seq<Coord>)
    requires IsBoard(b)
    ensures forall p :: p in best <==> p in cells && Score(b, p.0, p.1, sym) == m
  {
    if cells == [] then []
    else
      var rest := ScoringAmong(b, cells[1..], sym, m);
      assert forall p :: p in cells ==> p == cells[0] || p in cells[1..];
      if Score(b, cells[0].0, cells[0].1, sym) == m then [cells[0]] + rest else rest
  }

  /**
   * `next_move` for a given bot symbol; `oracle` stands for `random.choice`. 409 on a
   * full board; otherwise the first empty cell where the bot would make five, else the
   * first where the opponent would, else a best-scoring empty cell.
   */
  function NextMoveFor(b: Board, bot: string, oracle: nat): (r: Response<Coord>)
    requires IsBoard(b)
    ensures r.HttpError? ==> r.status == 409
    ensures r.Ok? ==> Empty(b, r.value)
  {
    var empties := Empties(b);
    if |empties| == 0 then HttpError(409)
    else
      var win := FirstFive(b, empties, bot);
      if win.Some? then Ok(win.value)
      else
        var block := FirstFive(b, empties, OtherSymbol(bot));
        if block.Some? then Ok(block.value)
        else
          var maxScore := MaxScore(b, empties, bot);
          var bestMoves := ScoringAmong(b, empties, bot, maxScore);
          assert |bestMoves| > 0 by {
            var p :| p in empties && Score(b, p.0, p.1, bot) == maxScore;
            assert p in bestMoves;
          }
          Ok(bestMoves[oracle % |bestMoves|])
  }

  /**
   * `next_move` as the server runs it: the bot is always "X". It answers 409 exactly on a
   * full board, and otherwise with an empty cell; an X five is taken before anything else.
   */
  function NextMove(b: Board, oracle: nat): (r: Response<Coord>)
    requires IsBoard(b)
    ensures r.HttpError? <==> forall p :: !Empty(b, p)
    ensures r.HttpError? ==> r.status == 409
    ensures r.Ok? ==> Empty(b, r.value)
    ensures (exists p :: Empty(b, p) && MakesFive(b, p.0, p.1, "X")) ==> r.Ok? && MakesFive(b, r.value.0, r.value.1, "X")
  {
    NextMoveSpec(b, BotSymbol, oracle);
    var r := NextMoveFor(b, BotSymbol, oracle);
    assert (exists p :: Empty(b, p) && MakesFive(b, p.0, p.1, "X")) ==> r.Ok? && MakesFive(b, r.value.0, r.value.1, "X") by {
      if exists p :: Empty(b, p) && MakesFive(b, p.0, p.1, "X") {
        NextMoveTakesWin(b, BotSymbol, oracle);
      }
    }
    r
  }

  /** 409 exactly on a board without an empty cell; otherwise a cell that is on the board and empty. */
  lemma NextMoveSpec(b: Board, bot: string, oracle: nat)
    requires IsBoard(b)
    ensures NextMoveFor(b, bot, oracle).HttpError? <==> forall p :: !Empty(b, p)
    ensures NextMoveFor(b, bot, oracle).HttpError? ==> NextMoveFor(b, bot, oracle).status == 409
    ensures NextMoveFor(b, bot, oracle).Ok? ==> Empty(b, NextMoveFor(b, bot, oracle).value)
  {
    var empties := Empties(b);
    if |empties| == 0 {
      forall p: Coord
        ensures !Empty(b, p)
      {
        assert p !in empties;
      }
    } else {
      assert empties[0] in empties;
      var r := NextMoveFor(b, bot, oracle);
      var win := FirstFive(b, empties, bot);
      var block := FirstFive(b, empties, OtherSymbol(bot));
      if win.None? && block.None? {
        var bestMoves := ScoringAmong(b, empties, bot, MaxScore(b, empties, bot));
        assert r.value in bestMoves;
      }
    }
  }

  /** The first cell of a row-major list with a property is the row-major-first cell of the list with it. */
  lemma FirstFiveIsRowMajorFirst(b: Board, cells: seq<Coord>, sym: string)
    requires IsBoard(b) && RowMajor(cells) && FirstFive(b, cells, sym).Some?
    ensures var p := FirstFive(b, cells, sym).value;
            && p in cells && MakesFive(b, p.0, p.1, sym)
            && forall q :: q in cells && Before(q, p) ==> !MakesFive(b, q.0, q.1, sym)
  {
    var p := FirstFive(b, cells, sym).value;
    var i :| 0 <= i < |cells| && cells[i] == p && MakesFive(b, p.0, p.1, sym)
             && forall j :: 0 <= j < i ==> !MakesFive(b, cells[j].0, cells[j].1, sym);
    forall q | q in cells && Before(q, p)
      ensures !MakesFive(b, q.0, q.1, sym)
    {
      var j :| 0 <= j < |cells| && cells[j] == q;
      assert j != i;
      assert j > i ==> Before(cells[i], cells[j]);
    }
  }

  /** First priority: when some empty cell completes five for the bot, the reply is the first such cell in row-major order. */
  lemma NextMoveTakesWin(b: Board, bot: string, oracle: nat)
    requires IsBoard(b)
    requires exists p :: Empty(b, p) && MakesFive(b, p.0, p.1, bot)
    ensures NextMoveFor(b, bot, oracle).Ok?
    ensures var p := NextMoveFor(b, bot, oracle).value;
            && Empty(b, p) && MakesFive(b, p.0, p.1, bot)
            && forall q :: Empty(b, q) && Before(q, p) ==> !MakesFive(b, q.0, q.1, bot)
  {
    var empties := Empties(b);
    var p :| Empty(b, p) && MakesFive(b, p.0, p.1, bot);
    assert p in empties;
    FirstFiveIsRowMajorFirst(b, empties, bot);
  }

  /**
   * Second priority: when no empty cell completes five for the bot but one does for the
   * opponent, the reply is the first such cell in row-major order (the block).
   */
  lemma NextMoveBlocks(b: Board, bot: string, oracle: nat)
    requires IsBoard(b)
    requires forall p :: Empty(b, p) ==> !MakesFive(b, p.0, p.1, bot)
    requires exists p :: Empty(b, p) && MakesFive(b, p.0, p.1, OtherSymbol(bot))
    ensures NextMoveFor(b, bot, oracle).Ok?
    ensures var p := NextMoveFor(b, bot, oracle).value;
            && Empty(b, p) && MakesFive(b, p.0, p.1, OtherSymbol(bot))
            && forall q :: Empty(b, q) && Before(q, p) ==> !MakesFive(b, q.0, q.1, OtherSymbol(bot))
  {
    var empties := Empties(b);
    var p :| Empty(b, p) && MakesFive(b, p.0, p.1, OtherSymbol(bot));
    assert p in empties;
    assert FirstFive(b, empties, bot).None?;
    FirstFiveIsRowMajorFirst(b, empties, OtherSymbol(bot));
  }

  /** Third priority: with no five for either side, the reply scores highest for the bot among the empty cells. */
  lemma NextMoveBestScore(b: Board, bot: string, oracle: nat)
    requires IsBoard(b)
    requires exists p :: Empty(b, p)
    requires forall p :: Empty(b, p) ==> !MakesFive(b, p.0, p.1, bot) && !MakesFive(b, p.0, p.1, OtherSymbol(bot))
    ensures NextMoveFor(b, bot, oracle).Ok?
    ensures var p := NextMoveFor(b, bot, oracle).value;
            && Empty(b, p)
            && forall q :: Empty(b, q) ==> Score(b, q.0, q.1, bot) <= Score(b, p.0, p.1, bot)
  {
    NextMoveInBestCase(b, bot, oracle);
    var empties := Empties(b);
    var bestMoves := ScoringAmong(b, empties, bot, MaxScore(b, empties, bot));
    assert NextMoveFor(b, bot, oracle).value in bestMoves;
  }

  /** With no five for either side, the reply is the oracle's pick among `best_moves`. */
  lemma NextMoveInBestCase(b: Board, bot: string, oracle: nat)
    requires IsBoard(b)
    requires exists p :: Empty(b, p)
    requires forall p :: Empty(b, p) ==> !MakesFive(b, p.0, p.1, bot) && !MakesFive(b, p.0, p.1, OtherSymbol(bot))
    ensures var empties := Empties(b);
            && |empties| > 0
            && var bestMoves := ScoringAmong(b, empties, bot, MaxScore(b, empties, bot));
            && |bestMoves| > 0
            && NextMoveFor(b, bot, oracle) == Ok(bestMoves[oracle % |bestMoves|])
  {
    var empties := Empties(b);
    var p :| Empty(b, p);
    assert p in empties;
    assert FirstFive(b, empties, bot).None?;
    assert FirstFive(b, empties, OtherSymbol(bot)).None?;
  }

  /** `random.choice(best_moves)` can pick any of them: every best-scoring empty cell is the reply for some oracle. */
  lemma NextMoveReachesEveryBest(b: Board, bot: string, p: Coord)
    requires IsBoard(b) && Empty(b, p)
    requires forall q :: Empty(b, q) ==> !MakesFive(b, q.0, q.1, bot) && !MakesFive(b, q.0, q.1, OtherSymbol(bot))
    requires forall q :: Empty(b, q) ==> Score(b, q.0, q.1, bot) <= Score(b, p.0, p.1, bot)
    ensures exists oracle: nat :: NextMoveFor(b, bot, oracle) == Ok(p)
  {
    var empties := Empties(b);
    BestCellIsAmongBest(b, bot, p);
    var bestMoves := ScoringAmong(b, empties, bot, MaxScore(b, empties, bot));
    var i :| 0 <= i < |bestMoves| && bestMoves[i] == p;
    NextMoveInBestCase(b, bot, i);
    ModOfSmaller(i, |bestMoves|);
    assert NextMoveFor(b, bot, i) == Ok(p);
  }

  /** An empty cell scoring at least as much as every empty cell is among `best_moves`. */
  lemma BestCellIsAmongBest(b: Board, bot: string, p: Coord)
    requires IsBoard(b) && Empty(b, p)
    requires forall q :: Empty(b, q) ==> Score(b, q.0, q.1, bot) <= Score(b, p.0, p.1, bot)
    ensures |Empties(b)| > 0
    ensures p in ScoringAmong(b, Empties(b), bot, MaxScore(b, Empties(b), bot))
  {
    var empties := Empties(b);
    assert p in empties;
    var m := MaxScore(b, empties, bot);
    var q :| q in empties && Score(b, q.0, q.1, bot) == m;
    assert Empty(b, q);
  }

  lemma ModOfSmaller(i: nat, n: nat)
    requires i < n
    ensures i % n == i
  {
  }

  /** `neighbours` before the `if` tests: up, down, left, right. */
  function Around(r: int, c: int): seq<Coord>
  {
    [(r - 1, c), (r + 1, c), (r, c - 1), (r, c + 1)]
  }

  /** Cells p and q are orthogonally adjacent. */
  predicate Adjacent(p: Coord, q: Coord)
  {
    Abs(p.0 - q.0) + Abs(p.1 - q.1) == 1
  }

  /** `neighbours` of (r1, c1) as `first_move` builds it: the on-board cells of Around, in that order. */
  function Neighbours(r: int, c: int): (n: seq<Coord>)
    ensures forall p :: p in n <==> InBounds(p.0, p.1) && Adjacent(p, (r, c))
    ensures InBounds(r, c) ==> |n| >= 2
  {
    var a := Around(r, c);
    var n := (if InBounds(a[0].0, a[0].1) then [a[0]] else [])
             + (if InBounds(a[1].0, a[1].1) then [a[1]] else [])
             + (if InBounds(a[2].0, a[2].1) then [a[2]] else [])
             + (if InBounds(a[3].0, a[3].1) then [a[3]] else []);
    assert forall p :: Adjacent(p, (r, c)) ==> p in a;
    n
  }

  /** `(r2, c2)`: the neighbour `random.choice` picks. */
  function SecondStone(r1: int, c1: int, pick: nat): (p: Coord)
    requires InBounds(r1, c1)
    ensures InBounds(p.0, p.1) && Adjacent(p, (r1, c1)) && p != (r1, c1)
  {
    var n := Neighbours(r1, c1);
    assert n[pick % |n|] in n;
    n[pick % |n|]
  }

  /**
   * `first_move`. (r1, c1) and `pick` are the first two random draws; the rejection loop
   * draws its cells from `draws` in order. The reply is the opening X at (r1, c1), X at the
   * picked neighbour and O at the first draw that is neither; None when `draws` runs out
   * before such a draw (the endpoint itself would keep drawing).
   */
  method FirstMove(r1: int, c1: int, pick: nat, draws: seq<Coord>) returns (reply: Option<Opening>)
    requires InBounds(r1, c1)
    requires forall k :: 0 <= k < |draws| ==> InBounds(draws[k].0, draws[k].1)
    ensures reply.None? <==> forall k :: 0 <= k < |draws| ==> draws[k] == (r1, c1) || draws[k] == SecondStone(r1, c1, pick)
    ensures reply.Some? ==>
              var moves := reply.value.moves;
              var second := SecondStone(r1, c1, pick);
              && reply.value.opponentName == "WifiBot"
              && |moves| == 3
              && moves[0] == Move(r1, c1, "X")
              && moves[1] == Move(second.0, second.1, "X")
              && moves[2].symbol == "O"
              && (forall m :: m in moves ==> InBounds(m.row, m.col))
              && Adjacent((moves[1].row, moves[1].col), (r1, c1))
              && (moves[2].row, moves[2].col) != (r1, c1)
              && (moves[2].row, moves[2].col) != second
              && exists k :: 0 <= k < |draws| && draws[k] == (moves[2].row, moves[2].col)
                             && forall j :: 0 <= j < k ==> draws[j] == (r1, c1) || draws[j] == second
  {
    var neighbours := CollectNeighbours(r1, c1);
    var second := neighbours[pick % |neighbours|];
    var k := RejectionLoop((r1, c1), second, draws);
    if k == |draws| {
      return None;
    }
    var third := draws[k];
    var moves := [Move(r1, c1, "X"), Move(second.0, second.1, "X"), Move(third.0, third.1, "O")];
    return Some(Opening("WifiBot", moves));
  }

  /** The `neighbours` list of `first_move`, appended to one test at a time. */
  method CollectNeighbours(r1: int, c1: int) returns (neighbours: seq<Coord>)
    requires InBounds(r1, c1)
    ensures neighbours == Neighbours(r1, c1)
  {
    neighbours := [];
    if r1 > 0 {
      neighbours := neighbours + [(r1 - 1, c1)];
    }
    if r1 < Size - 1 {
      neighbours := neighbours + [(r1 + 1, c1)];
    }
    if c1 > 0 {
      neighbours := neighbours + [(r1, c1 - 1)];
    }
    if c1 < Size - 1 {
      neighbours := neighbours + [(r1, c1 + 1)];
    }
    var a := Around(r1, c1);
    assert (r1 > 0) == InBounds(a[0].0, a[0].1) && (r1 < Size - 1) == InBounds(a[1].0, a[1].1);
    assert (c1 > 0) == InBounds(a[2].0, a[2].1) && (c1 < Size - 1) == InBounds(a[3].0, a[3].1);
  }

  /** The `while True` loop of `first_move`: the index of the first draw that is neither stone, or |draws| if there is none. */
  method RejectionLoop(first: Coord, second: Coord, draws: seq<Coord>) returns (k: nat)
    ensures k <= |draws|
    ensures forall j :: 0 <= j < k ==> draws[j] == first || draws[j] == second
    ensures k < |draws| ==> draws[k] != first && draws[k] != second
  {
    k := 0;
    while k < |draws| && (draws[k] == first || draws[k] == second)
      invariant 0 <= k <= |draws|
      invariant forall j :: 0 <= j < k ==> draws[j] == first || draws[j] == second
    {
      k := k + 1;
    }
  }

  /** `announce_symbol`: 400 unless the client announced "X" or "O"; otherwise the other symbol. */
  function AnnounceSymbol(chosen: string): (r: Response<string>)
    ensures r.HttpError? <==> chosen != "X" && chosen != "O"
    ensures r.HttpError? ==> r.status == 400
    ensures r.Ok? ==> (r.value == "X" || r.value == "O") && r.value != chosen
  {
    if chosen != "X" && chosen != "O" then HttpError(400)
    else Ok(OtherSymbol(chosen))
  }

  /** Announcing the bot's reply gives back the client's symbol: the two sides swap symbols. */
  lemma AnnounceSymbolRoundTrip(chosen: string)
    ensures AnnounceSymbol(chosen).Ok? ==> AnnounceSymbol(AnnounceSymbol(chosen).value) == Ok(chosen)
  {
  }

  /** `choose_symbol`: `tmp` is `random.randint(0, 1)`; the board is not consulted. */
  function ChooseSymbol(b: Board, tmp: int): (sym: string)
    requires 0 <= tmp <= 1
    ensures sym == "X" || sym == "O"
  {
    if tmp == 0 then "X" else "O"
  }

  /**
   * The server as intended: `bot_symbol` is remembered by `announce_symbol` and
   * `choose_symbol` and read by `next_move`.
   */
  class BotSession {
    var botSymbol: string

    ghost predicate Valid()
      reads this
    {
      botSymbol == "X" || botSymbol == "O"
    }

    /** The server starts with `bot_symbol = "X"`. */
    constructor ()
      ensures Valid() && botSymbol == BotSymbol
    {
      botSymbol := BotSymbol;
    }

    /** `announce_symbol`, remembering the reply. */
    method Announce(chosen: string) returns (reply: Response<string>)
      requires Valid()
      modifies this
      ensures Valid()
      ensures reply == AnnounceSymbol(chosen)
      ensures reply.Ok? ==> botSymbol == reply.value && botSymbol != chosen
      ensures reply.HttpError? ==> botSymbol == old(botSymbol)
    {
      if chosen != "X" && chosen != "O" {
        return HttpError(400);
      }
      botSymbol := OtherSymbol(chosen);
      return Ok(botSymbol);
    }

    /** `choose_symbol`, remembering the choice. */
    method Choose(b: Board, tmp: int) returns (sym: string)
      requires Valid() && 0 <= tmp <= 1
      modifies this
      ensures Valid()
      ensures sym == ChooseSymbol(b, tmp) && botSymbol == sym
    {
      botSymbol := if tmp == 0 then "X" else "O";
      sym := botSymbol;
    }

    /**
     * `next_move`, playing the remembered symbol: 409 exactly on a full board, otherwise an
     * empty cell; the first cell (in row-major order) completing the bot's five, else the
     * first completing the opponent's, else a cell of the highest score for the bot.
     */
    method NextMove(b: Board, oracle: nat) returns (reply: Response<Coord>)
      requires Valid() && IsBoard(b)
      ensures reply == NextMoveFor(b, botSymbol, oracle)
      ensures reply.HttpError? <==> forall p :: !Empty(b, p)
      ensures reply.HttpError? ==> reply.status == 409
      ensures reply.Ok? ==> Empty(b, reply.value)
      ensures (exists p :: Empty(b, p) && MakesFive(b, p.0, p.1, botSymbol)) ==>
                && reply.Ok? && MakesFive(b, reply.value.0, reply.value.1, botSymbol)
                && forall q :: Empty(b, q) && Before(q, reply.value) ==> !MakesFive(b, q.0, q.1, botSymbol)
      ensures && (forall p :: Empty(b, p) ==> !MakesFive(b, p.0, p.1, botSymbol))
              && (exists p :: Empty(b, p) && MakesFive(b, p.0, p.1, OtherSymbol(botSymbol))) ==>
                && reply.Ok? && MakesFive(b, reply.value.0, reply.value.1, OtherSymbol(botSymbol))
                && forall q :: Empty(b, q) && Before(q, reply.value) ==> !MakesFive(b, q.0, q.1, OtherSymbol(botSymbol))
      ensures && (exists p :: Empty(b, p))
              && (forall p :: Empty(b, p) ==> !MakesFive(b, p.0, p.1, botSymbol) && !MakesFive(b, p.0, p.1, OtherSymbol(botSymbol))) ==>
                && reply.Ok?
                && forall q :: Empty(b, q) ==> Score(b, q.0, q.1, botSymbol) <= Score(b, reply.value.0, reply.value.1, botSymbol)
    {
      reply := NextMoveFor(b, botSymbol, oracle);
      NextMoveSpec(b, botSymbol, oracle);
      if exists p :: Empty(b, p) && MakesFive(b, p.0, p.1, botSymbol) {
        NextMoveTakesWin(b, botSymbol, oracle);
      } else if exists p :: Empty(b, p) && MakesFive(b, p.0, p.1, OtherSymbol(botSymbol)) {
        NextMoveBlocks(b, botSymbol, oracle);
      } else if exists p :: Empty(b, p) {
        NextMoveBestScore(b, botSymbol, oracle);
      }
    }
  }

  /** A board where O has four in a row at (0, 0)-(0, 3) and X has four at (1, 0)-(1, 3). */
  function TwoFours(): (b: Board)
    ensures IsBoard(b)
  {
    seq(Size, i => seq(Size, j => if i == 0 && j < 4 then "O" else if i == 1 && j < 4 then "X" else ""))
  }

  /** (0, 4) completes O's five on TwoFours, and it is the first empty cell in row-major order. */
  lemma TwoFoursOWinsAtZeroFour()
    ensures Empty(TwoFours(), (0, 4)) && MakesFive(TwoFours(), 0, 4, "O")
    ensures forall q :: Empty(TwoFours(), q) ==> !Before(q, (0, 4))
  {
    var b := TwoFours();
    assert Reach(b, 0, 4, 0, 1, "O", 1) == 0;
    assert Reach(b, 0, 4, 0, -1, "O", 5) == 0;
    assert Reach(b, 0, 4, 0, -1, "O", 4) == 1;
    assert Reach(b, 0, 4, 0, -1, "O", 3) == 2;
    assert Reach(b, 0, 4, 0, -1, "O", 2) == 3;
    assert Reach(b, 0, 4, 0, -1, "O", 1) == 4;
    assert LineCount(b, 0, 4, "O", 1) == 5;
  }

  /** X cannot complete five at (0, 4) on TwoFours. */
  lemma TwoFoursXNotAtZeroFour()
    ensures !MakesFive(TwoFours(), 0, 4, "X")
  {
    TwoFoursXStraightAtZeroFour();
    TwoFoursXDiagonalAtZeroFour();
  }

  /** At (0, 4) on TwoFours, X counts 1 vertically and 1 horizontally. */
  lemma TwoFoursXStraightAtZeroFour()
    ensures LineCount(TwoFours(), 0, 4, "X", 0) == 1 && LineCount(TwoFours(), 0, 4, "X", 1) == 1
  {
    var b := TwoFours();
    assert Reach(b, 0, 4, 1, 0, "X", 1) == 0 && Reach(b, 0, 4, -1, 0, "X", 1) == 0;
    assert Reach(b, 0, 4, 0, 1, "X", 1) == 0 && Reach(b, 0, 4, 0, -1, "X", 1) == 0;
  }

  /** At (0, 4) on TwoFours, X counts 1 on the main diagonal and 2 on the anti-diagonal, through (1, 3). */
  lemma TwoFoursXDiagonalAtZeroFour()
    ensures LineCount(TwoFours(), 0, 4, "X", 2) == 1 && LineCount(TwoFours(), 0, 4, "X", 3) == 2
  {
    var b := TwoFours();
    assert Reach(b, 0, 4, 1, 1, "X", 1) == 0 && Reach(b, 0, 4, -1, -1, "X", 1) == 0;
    assert Reach(b, 0, 4, 1, -1, "X", 2) == 0;
    assert Reach(b, 0, 4, 1, -1, "X", 1) == 1 && Reach(b, 0, 4, -1, 1, "X", 1) == 0;
  }

  /** (1, 4) completes X's five on TwoFours. */
  lemma TwoFoursXWinsAtOneFour()
    ensures Empty(TwoFours(), (1, 4)) && MakesFive(TwoFours(), 1, 4, "X")
  {
    var b := TwoFours();
    assert Reach(b, 1, 4, 0, 1, "X", 1) == 0;
    assert Reach(b, 1, 4, 0, -1, "X", 5) == 0;
    assert Reach(b, 1, 4, 0, -1, "X", 4) == 1;
    assert Reach(b, 1, 4, 0, -1, "X", 3) == 2;
    assert Reach(b, 1, 4, 0, -1, "X", 2) == 3;
    assert Reach(b, 1, 4, 0, -1, "X", 1) == 4;
    assert LineCount(b, 1, 4, "X", 1) == 5;
  }

  /**
   * As written, the bot forgets the symbol it announced. The client announces "X", the
   * server replies that it plays "O", and on TwoFours, with O to move, `next_move` does not
   * play O's winning (0, 4): it still looks for X's five first and answers with one.
   */
  lemma AnnouncedSymbolIsForgotten(oracle: nat)
    ensures AnnounceSymbol("X") == Ok("O")
    ensures NextMove(TwoFours(), oracle).Ok?
    ensures NextMove(TwoFours(), oracle).value != (0, 4)
    ensures MakesFive(TwoFours(), NextMove(TwoFours(), oracle).value.0, NextMove(TwoFours(), oracle).value.1, "X")
    ensures MakesFive(TwoFours(), 0, 4, "O")
  {
    TwoFoursOWinsAtZeroFour();
    TwoFoursXNotAtZeroFour();
    TwoFoursXWinsAtOneFour();
    NextMoveTakesWin(TwoFours(), BotSymbol, oracle);
  }

  /** With the remembered symbol "O", `next_move` takes O's win at (0, 4) on TwoFours. */
  lemma RememberedSymbolTakesWin(oracle: nat)
    ensures NextMoveFor(TwoFours(), "O", oracle) == Ok((0, 4))
  {
    TwoFoursOWinsAtZeroFour();
    NextMoveTakesWin(TwoFours(), "O", oracle);
    var p := NextMoveFor(TwoFours(), "O", oracle).value;
    assert !Before(p, (0, 4)) && !Before((0, 4), p);
  }

  /**
   * The scenario of the bot-symbol finding on the corrected server: a fresh session, the
   * client announces "X", the bot replies that it plays "O", and on TwoFours its next move
   * is O's winning (0, 4).
   */
  method AnnounceThenTakeWin(oracle: nat) returns (announced: Response<string>, reply: Response<Coord>)
    ensures announced == Ok("O")
    ensures reply == Ok((0, 4))
  {
    var session := new BotSession();
    announced := session.Announce("X");
    reply := session.NextMove(TwoFours(), oracle);
    RememberedSymbolTakesWin(oracle);
  }
}
