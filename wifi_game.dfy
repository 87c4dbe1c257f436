/**
 * The match controller of the Wi-Fi screen (`GameWithWifiScreen`).
 *
 * The screen keeps its state in remembered variables and changes it from button handlers
 * and from coroutines that wait for the bot server. Here that state is the class WifiMatch
 * and every handler, and every coroutine continuation after a network reply, is one method.
 * A reply is a parameter: `None` stands for the exception the request raised. The request a
 * coroutine is waiting on is the field `pending`; the calls to `userDao.updateResult` are
 * appended to the ghost log `statsLog`.
 */
module WifiGame {
  import opened Basics
  import opened WinCheck

  /** The host name the screen receives when nobody is logged in. */
  const Guest := "Guest"

  /** `WifiGamePhase`. */
  datatype Phase =
    | CoinTossPending
    | LocalPlayerOpening
    | AwaitingApiChoice
    | AwaitingApiOpening
    | NormalPlay
    | GameOver

  /** The bot-server request whose reply a launched coroutine is still waiting for. */
  datatype Pending = Idle | FirstMovePending | SymbolChoicePending | NextMovePending

  /** A call `userDao.updateResult(player, result)`. */
  datatype StatsEntry = UpdateResult(player: string, result: int)

  /** (r, c) is a cell of the 14 x 14 board. */
  predicate OnBoard(r: int, c: int)
  {
    0 <= r < Size && 0 <= c < Size
  }

  /** The symbol of the local player's opening stone number `count` (from 0). */
  function OpeningSymbol(count: nat): (s: string)
    ensures s == "X" || s == "O"
    ensures s == "O" <==> count >= 2
  {
    if count < 2 then "X" else "O"
  }

  /** What cell (i, j) holds after `moves` are written in order over `init`: the last write to it wins. */
  function CellAfter(moves: seq<Move>, i: int, j: int, init: string): string
  {
    if moves == [] then init
    else
      var m := moves[|moves| - 1];
      if m.row == i && m.col == j then m.symbol else CellAfter(moves[..|moves| - 1], i, j, init)
  }

  /** A cell no move targets keeps its content. */
  lemma {:induction false} CellAfterUntouched(moves: seq<Move>, i: int, j: int, init: string)
    requires forall k :: 0 <= k < |moves| ==> (moves[k].row, moves[k].col) != (i, j)
    ensures CellAfter(moves, i, j, init) == init
  {
    if moves != [] {
      CellAfterUntouched(moves[..|moves| - 1], i, j, init);
    }
  }

  /** A cell holds the symbol of the last move that targets it. */
  lemma {:induction false} CellAfterLastWins(moves: seq<Move>, k: nat, i: int, j: int, init: string)
    requires k < |moves| && moves[k].row == i && moves[k].col == j
    requires forall l :: k < l < |moves| ==> (moves[l].row, moves[l].col) != (i, j)
    ensures CellAfter(moves, i, j, init) == moves[k].symbol
  {
    if k < |moves| - 1 {
      CellAfterLastWins(moves[..|moves| - 1], k, i, j, init);
    }
  }

  class WifiMatch {
    /** `hostPlayerName`. */
    const host: string
    /** `board`: 14 rows of 14 cells, "" for an empty cell. */
    const board: array2<string>
    /** `gamePhase`. */
    var phase: Phase
    /** `localPlayerSymbol`. */
    var localSymbol: string
    /** `opponentApiSymbol`. */
    var apiSymbol: string
    /** `currentTurnSymbol`. */
    var turn: string
    /** `opponentApiName`. */
    var opponentName: string
    /** `winnerName`. */
    var winnerName: Option<string>
    /** `winningCoords`. */
    var winningCoords: seq<Coord>
    /** `showCoinTossDialog`. */
    var showCoinToss: bool
    /** `showSymbolChoiceDialog`. */
    var showSymbolChoice: bool
    /** `localPlayerOpeningMovesCount`. */
    var openingCount: nat
    /** The request a launched coroutine is waiting on. */
    var pending: Pending
    /** The screen was closed by `context.finish()`. */
    var closed: bool
    /** The calls made to `userDao.updateResult`, in order. */
    ghost var statsLog: seq<StatsEntry>

    /**
     * The invariant the handlers keep. The two symbols always differ and the local one is
     * X or O; at most one request is outstanding and each kind belongs to one phase; in
     * particular the bot's move is outstanding exactly when it is the bot's turn in normal
     * play, which is what keeps clicks away while it is in flight.
     */
    ghost predicate Valid()
      reads this
    {
      && board.Length0 == Size && board.Length1 == Size
      && localSymbol != apiSymbol
      && (localSymbol == "X" || localSymbol == "O")
      && (showCoinToss <==> phase == CoinTossPending)
      && (showSymbolChoice ==> phase == AwaitingApiOpening)
      && (phase == CoinTossPending ==> openingCount == 0)
      && (phase == LocalPlayerOpening ==> openingCount < 3)
      && (pending == FirstMovePending <==> phase == AwaitingApiOpening && !showSymbolChoice && !closed)
      && (pending == SymbolChoicePending <==> phase == AwaitingApiChoice)
      && (pending == NextMovePending <==> phase == NormalPlay && turn == apiSymbol)
      && (phase == NormalPlay ==> turn == localSymbol || turn == apiSymbol)
      && (phase == GameOver <==> winnerName.Some?)
      && (closed ==> phase == AwaitingApiOpening && !showSymbolChoice)
    }

    /** The screen's first composition: an empty board and the coin-toss dialog. */
    constructor (host: string)
      ensures Valid() && fresh(board)
      ensures this.host == host
      ensures forall i, j :: 0 <= i < Size && 0 <= j < Size ==> board[i, j] == ""
      ensures phase == CoinTossPending && showCoinToss && !showSymbolChoice
      ensures localSymbol == "X" && apiSymbol == "O" && turn == "X"
      ensures opponentName == "Opponent API" && winnerName == None && winningCoords == []
      ensures openingCount == 0 && pending == Idle && !closed && statsLog == []
    {
      this.host := host;
      board := new string[Size, Size]((i, j) => "");
      phase := CoinTossPending;
      localSymbol, apiSymbol, turn := "X", "O", "X";
      opponentName := "Opponent API";
      winnerName, winningCoords := None, [];
      showCoinToss, showSymbolChoice := true, false;
      openingCount := 0;
      pending, closed := Idle, false;
      statsLog := [];
    }

    /** Coin toss, host button: the local player places the opening stones. */
    method ChooseLocalOpening()
      requires Valid() && showCoinToss
      modifies this
      ensures Valid()
      ensures !showCoinToss && phase == LocalPlayerOpening
      ensures turn == "X" && localSymbol == "X" && apiSymbol == "O"
      ensures unchanged(this`opponentName, this`winnerName, this`winningCoords, this`showSymbolChoice,
                        this`openingCount, this`pending, this`closed, this`statsLog)
    {
      showCoinToss := false;
      phase := LocalPlayerOpening;
      turn := "X";
      localSymbol := "X";
      apiSymbol := "O";
    }

    /** Coin toss, bot button: ask the server for its opening batch. */
    method ChooseApiOpening()
      requires Valid() && showCoinToss
      modifies this
      ensures Valid()
      ensures !showCoinToss && phase == AwaitingApiOpening && pending == FirstMovePending
      ensures unchanged(this`localSymbol, this`apiSymbol, this`turn, this`opponentName, this`winnerName,
                        this`winningCoords, this`showSymbolChoice, this`openingCount, this`closed, this`statsLog)
    {
      showCoinToss := false;
      phase := AwaitingApiOpening;
      pending := FirstMovePending;
    }

    /**
     * `applyMovesToBoard`: writes every move whose cell is on the board, in list order, and
     * skips the others; no occupancy check, no win check, nothing else changes.
     */
    method ApplyMovesToBoard(moves: seq<Move>)
      requires board.Length0 == Size && board.Length1 == Size
      modifies board
      ensures forall i, j :: 0 <= i < Size && 0 <= j < Size ==>
                board[i, j] == CellAfter(moves, i, j, old(board[i, j]))
    {
      var k := 0;
      while k < |moves|
        invariant 0 <= k <= |moves|
        invariant forall i, j :: 0 <= i < Size && 0 <= j < Size ==>
                    board[i, j] == CellAfter(moves[..k], i, j, old(board[i, j]))
      {
        var m := moves[k];
        if 0 <= m.row < board.Length0 && 0 <= m.col < board.Length1 {
          board[m.row, m.col] := m.symbol;
        }
        assert moves[..k + 1][..k] == moves[..k];
        k := k + 1;
      }
      assert moves[..k] == moves;
    }

    /**
     * Reply to `/game/first-move`. On success the bot's name is kept, its stones are applied
     * and the symbol-choice buttons appear; on failure the screen is closed.
     */
    method ApiOpeningResponse(response: Option<(string, seq<Move>)>)
      requires Valid() && pending == FirstMovePending
      modifies this, board
      ensures Valid() && pending == Idle
      ensures response.Some? ==>
                && opponentName == response.value.0 && showSymbolChoice && !closed
                && forall i, j :: 0 <= i < Size && 0 <= j < Size ==>
                     board[i, j] == CellAfter(response.value.1, i, j, old(board[i, j]))
      ensures response.None? ==>
                && closed && unchanged(board)
                && unchanged(this`opponentName, this`showSymbolChoice)
      ensures unchanged(this`phase, this`localSymbol, this`apiSymbol, this`turn, this`winnerName,
                        this`winningCoords, this`showCoinToss, this`openingCount, this`statsLog)
    {
      pending := Idle;
      match response {
        case Some((apiName, openingMoves)) =>
          opponentName := apiName;
          ApplyMovesToBoard(openingMoves);
          showSymbolChoice := true;
        case None =>
          closed := true;
      }
    }

    /**
     * "Play as X" / "Play as O" after the bot's opening. If announcing the choice fails the
     * coroutine stops before changing anything; otherwise the local player takes `symbol`,
     * the bot the other one, and the bot is asked for its move, since it moves next.
     */
    method LocalSymbolChoice(symbol: string, announced: bool)
      requires Valid() && showSymbolChoice
      requires symbol == "X" || symbol == "O"
      modifies this
      ensures Valid()
      ensures !announced ==> unchanged(this)
      ensures announced ==>
                && localSymbol == symbol && apiSymbol == OtherSymbol(symbol) && turn == apiSymbol
                && !showSymbolChoice && phase == NormalPlay && pending == NextMovePending
                && unchanged(this`opponentName, this`winnerName, this`winningCoords, this`showCoinToss,
                             this`openingCount, this`closed, this`statsLog)
    {
      if announced {
        localSymbol := symbol;
        apiSymbol := OtherSymbol(symbol);
        turn := apiSymbol;
        showSymbolChoice := false;
        phase := NormalPlay;
        pending := NextMovePending;
      }
    }

    /**
     * A click on cell (r, c). Ignored after the game is over, on an occupied cell, and in
     * every phase but the local opening and the local player's turn in normal play. An
     * opening stone is X, X, then O, with no win check; the third asks the bot to choose.
     * A normal move places the local symbol and either ends the game or asks for the bot's move.
     */
    method CellClick(r: int, c: int)
      requires Valid() && OnBoard(r, c)
      modifies this, board
      ensures Valid()
      ensures forall i, j :: 0 <= i < Size && 0 <= j < Size && (i, j) != (r, c) ==> board[i, j] == old(board[i, j])
      ensures (|| old(phase) == GameOver || old(board[r, c]) != ""
               || (old(phase) != LocalPlayerOpening && !(old(phase) == NormalPlay && old(turn) == old(localSymbol))))
              ==> unchanged(this) && unchanged(board)
      ensures old(pending) == NextMovePending ==> unchanged(this) && unchanged(board)
      ensures old(phase) == LocalPlayerOpening && old(board[r, c]) == "" ==>
                && board[r, c] == OpeningSymbol(old(openingCount))
                && openingCount == old(openingCount) + 1
                && phase == (if openingCount == 3 then AwaitingApiChoice else LocalPlayerOpening)
                && pending == (if openingCount == 3 then SymbolChoicePending else Idle)
                && unchanged(this`localSymbol, this`apiSymbol, this`turn, this`opponentName, this`winnerName,
                             this`winningCoords, this`showCoinToss, this`showSymbolChoice, this`closed,
                             this`statsLog)
      ensures old(phase) == NormalPlay && old(turn) == old(localSymbol) && old(board[r, c]) == "" ==>
                && board[r, c] == localSymbol
                && unchanged(this`localSymbol, this`apiSymbol, this`opponentName, this`showCoinToss,
                             this`showSymbolChoice, this`openingCount, this`closed)
                && (WinLine(board, localSymbol, r, c).Some? ==>
                      && phase == GameOver && winnerName == Some(host) && pending == Idle && turn == old(turn)
                      && winningCoords == WinLine(board, localSymbol, r, c).value
                      && statsLog == old(statsLog) + (if host != Guest then [UpdateResult(host, 1)] else []))
                && (WinLine(board, localSymbol, r, c).None? ==>
                      && phase == NormalPlay && turn == apiSymbol && pending == NextMovePending
                      && unchanged(this`winnerName, this`winningCoords, this`statsLog))
    {
      if phase == GameOver || board[r, c] != "" {
        return;
      }
      if phase == LocalPlayerOpening {
        PlaceOpeningStone(r, c);
      } else if phase == NormalPlay && turn == localSymbol {
        PlaceLocalStone(r, c);
      }
    }

    /** `board[r][c] = symbol`: one cell written, every other cell kept. */
    method SetCell(r: int, c: int, symbol: string)
      requires board.Length0 == Size && board.Length1 == Size && OnBoard(r, c)
      modifies board
      ensures board[r, c] == symbol
      ensures forall i, j :: 0 <= i < Size && 0 <= j < Size && (i, j) != (r, c) ==> board[i, j] == old(board[i, j])
    {
      board[r, c] := symbol;
    }

    /**
     * The end of the game: the winning line is kept, the winner named, and for a logged-in
     * host the outcome (1 for a win, 0 for a loss) is reported to the statistics store.
     */
    method EndGame(winner: string, result: int, line: seq<Coord>)
      requires Valid() && phase == NormalPlay
      modifies this
      ensures Valid() && pending == Idle
      ensures phase == GameOver && winnerName == Some(winner) && winningCoords == line
      ensures statsLog == old(statsLog) + (if host != Guest then [UpdateResult(host, result)] else [])
      ensures unchanged(this`localSymbol, this`apiSymbol, this`turn, this`opponentName, this`showCoinToss,
                        this`showSymbolChoice, this`openingCount, this`closed)
    {
      pending := Idle;
      winningCoords := line;
      winnerName := Some(winner);
      phase := GameOver;
      statsLog := statsLog + (if host != Guest then [UpdateResult(host, result)] else []);
    }

    /** The opening branch of a click (lines 279-283). */
    method PlaceOpeningStone(r: int, c: int)
      requires Valid() && OnBoard(r, c) && phase == LocalPlayerOpening
      modifies this, board
      ensures Valid()
      ensures forall i, j :: 0 <= i < Size && 0 <= j < Size && (i, j) != (r, c) ==> board[i, j] == old(board[i, j])
      ensures board[r, c] == OpeningSymbol(old(openingCount))
      ensures openingCount == old(openingCount) + 1
      ensures phase == (if openingCount == 3 then AwaitingApiChoice else LocalPlayerOpening)
      ensures pending == (if openingCount == 3 then SymbolChoicePending else Idle)
      ensures unchanged(this`localSymbol, this`apiSymbol, this`turn, this`opponentName, this`winnerName,
                        this`winningCoords, this`showCoinToss, this`showSymbolChoice, this`closed,
                        this`statsLog)
    {
      var symbolToPlace := OpeningSymbol(openingCount);
      SetCell(r, c, symbolToPlace);
      openingCount := openingCount + 1;
      if openingCount == 3 {
        phase := AwaitingApiChoice;
        pending := SymbolChoicePending;
      }
    }

    /** The normal-play branch of a click (lines 302-317). */
    method PlaceLocalStone(r: int, c: int)
      requires Valid() && OnBoard(r, c) && phase == NormalPlay && turn == localSymbol
      modifies this, board
      ensures Valid()
      ensures forall i, j :: 0 <= i < Size && 0 <= j < Size && (i, j) != (r, c) ==> board[i, j] == old(board[i, j])
      ensures board[r, c] == localSymbol
      ensures unchanged(this`localSymbol, this`apiSymbol, this`opponentName, this`showCoinToss,
                        this`showSymbolChoice, this`openingCount, this`closed)
      ensures WinLine(board, localSymbol, r, c).Some? ==>
                && phase == GameOver && winnerName == Some(host) && pending == Idle && turn == old(turn)
                && winningCoords == WinLine(board, localSymbol, r, c).value
                && statsLog == old(statsLog) + (if host != Guest then [UpdateResult(host, 1)] else [])
      ensures WinLine(board, localSymbol, r, c).None? ==>
                && phase == NormalPlay && turn == apiSymbol && pending == NextMovePending
                && unchanged(this`winnerName, this`winningCoords, this`statsLog)
    {
      SetCell(r, c, localSymbol);
      var win := CheckWinWifi(board, localSymbol, r, c);
      if win.Some? {
        EndGame(host, 1, win.value);
      } else {
        turn := apiSymbol;
        pending := NextMovePending;
      }
    }

    /**
     * Reply to `/game/choose`. On success the bot keeps the symbol it chose, the local player
     * takes the other and moves next. On failure the opening starts over on an empty board.
     */
    method ApiChoiceResponse(response: Option<string>)
      requires Valid() && pending == SymbolChoicePending
      modifies this, board
      ensures Valid() && pending == Idle
      ensures response.Some? ==>
                && apiSymbol == response.value && localSymbol == OtherSymbol(response.value)
                && turn == localSymbol && phase == NormalPlay
                && unchanged(board) && unchanged(this`openingCount)
      ensures response.None? ==>
                && phase == LocalPlayerOpening && openingCount == 0
                && (forall i, j :: 0 <= i < Size && 0 <= j < Size ==> board[i, j] == "")
                && unchanged(this`localSymbol, this`apiSymbol, this`turn)
      ensures unchanged(this`opponentName, this`winnerName, this`winningCoords, this`showCoinToss,
                        this`showSymbolChoice, this`closed, this`statsLog)
    {
      pending := Idle;
      match response {
        case Some(apiChosenSymbol) =>
          apiSymbol := apiChosenSymbol;
          localSymbol := OtherSymbol(apiChosenSymbol);
          turn := localSymbol;
          phase := NormalPlay;
        case None =>
          phase := LocalPlayerOpening;
          openingCount := 0;
          forall i, j | 0 <= i < Size && 0 <= j < Size {
            board[i, j] := "";
          }
      }
    }

    /**
     * Reply to `/game/next-move` (the coroutine of `makeApiMove`). A reply naming an empty
     * cell of the board places the bot's symbol there and either ends the game or gives the
     * turn back; an occupied cell, an index off the board or a failed request changes no
     * cell and gives the turn back.
     */
    method ApiMoveResponse(response: Option<Coord>)
      requires Valid() && pending == NextMovePending
      modifies this, board
      ensures Valid() && pending == Idle
      ensures unchanged(this`localSymbol, this`apiSymbol, this`opponentName, this`showCoinToss,
                        this`showSymbolChoice, this`openingCount, this`closed)
      ensures !(response.Some? && OnBoard(response.value.0, response.value.1)
                && old(board[response.value.0, response.value.1]) == "") ==>
                && unchanged(board) && turn == localSymbol && phase == NormalPlay
                && unchanged(this`winnerName, this`winningCoords, this`statsLog)
      ensures response.Some? && OnBoard(response.value.0, response.value.1)
              && old(board[response.value.0, response.value.1]) == "" ==>
                var (r, c) := response.value;
                && board[r, c] == apiSymbol
                && (forall i, j :: 0 <= i < Size && 0 <= j < Size && (i, j) != (r, c) ==>
                      board[i, j] == old(board[i, j]))
                && (WinLine(board, apiSymbol, r, c).Some? ==>
                      && phase == GameOver && winnerName == Some(opponentName) && turn == old(turn)
                      && winningCoords == WinLine(board, apiSymbol, r, c).value
                      && statsLog == old(statsLog) + (if host != Guest then [UpdateResult(host, 0)] else []))
                && (WinLine(board, apiSymbol, r, c).None? ==>
                      && phase == NormalPlay && turn == localSymbol
                      && unchanged(this`winnerName, this`winningCoords, this`statsLog))
    {
      match response {
        case None =>
          pending := Idle;
          turn := localSymbol;
        case Some((r, c)) =>
          if !(0 <= r < Size && 0 <= c < Size) {
            // board[r][c] throws IndexOutOfBoundsException, caught like any failure
            pending := Idle;
            turn := localSymbol;
          } else if board[r, c] == "" {
            PlaceApiStone(r, c);
          } else {
            pending := Idle;
            turn := localSymbol;
          }
      }
    }

    /** The branch of `makeApiMove` for a reply naming an empty cell (lines 131-147). */
    method PlaceApiStone(r: int, c: int)
      requires Valid() && OnBoard(r, c) && pending == NextMovePending
      requires phase == NormalPlay && turn == apiSymbol
      modifies this, board
      ensures Valid() && pending == Idle
      ensures forall i, j :: 0 <= i < Size && 0 <= j < Size && (i, j) != (r, c) ==> board[i, j] == old(board[i, j])
      ensures board[r, c] == apiSymbol
      ensures unchanged(this`localSymbol, this`apiSymbol, this`opponentName, this`showCoinToss,
                        this`showSymbolChoice, this`openingCount, this`closed)
      ensures WinLine(board, apiSymbol, r, c).Some? ==>
                && phase == GameOver && winnerName == Some(opponentName) && turn == old(turn)
                && winningCoords == WinLine(board, apiSymbol, r, c).value
                && statsLog == old(statsLog) + (if host != Guest then [UpdateResult(host, 0)] else [])
      ensures WinLine(board, apiSymbol, r, c).None? ==>
                && phase == NormalPlay && turn == localSymbol
                && unchanged(this`winnerName, this`winningCoords, this`statsLog)
    {
      SetCell(r, c, apiSymbol);
      var win := CheckWinWifi(board, apiSymbol, r, c);
      if win.Some? {
        EndGame(opponentName, 0, win.value);
      } else {
        pending := Idle;
        turn := localSymbol;
      }
    }
  }

  /** A stone in the corner (13, 13) whose three neighbours are empty makes no five. */
  lemma CornerStoneNoWin(board: array2<string>, symbol: string)
    requires board.Length0 == Size && board.Length1 == Size && symbol != ""
    requires board[13, 12] == "" && board[12, 13] == "" && board[12, 12] == ""
    ensures WinLine(board, symbol, 13, 13).None?
  {
    assert AxisCount(board, symbol, 13, 13, 0) == 1;
    assert AxisCount(board, symbol, 13, 13, 1) == 1;
    assert AxisCount(board, symbol, 13, 13, 2) == 1;
    assert AxisCount(board, symbol, 13, 13, 3) == 1;
    FirstWinNone(board, symbol, 13, 13, 0);
  }

  /**
   * The host's three opening clicks on a fresh match whose coin toss the host won: X at
   * (7, 7), X at (7, 8), O at (0, 0); the bot is then asked to choose. The corner (13, 13)
   * and its neighbours stay empty.
   */
  method PlayLocalOpening(m: WifiMatch)
    requires m.Valid() && m.phase == LocalPlayerOpening && m.openingCount == 0
    requires forall i, j :: 0 <= i < Size && 0 <= j < Size ==> m.board[i, j] == ""
    modifies m, m.board
    ensures m.Valid() && m.phase == AwaitingApiChoice && m.pending == SymbolChoicePending
    ensures m.board[7, 7] == "X" && m.board[7, 8] == "X" && m.board[0, 0] == "O"
    ensures m.board[13, 13] == "" && m.board[13, 12] == "" && m.board[12, 13] == "" && m.board[12, 12] == ""
  {
    m.CellClick(7, 7);
    assert m.openingCount == 1 && m.board[7, 7] == "X";
    m.CellClick(7, 8);
    assert m.openingCount == 2 && m.board[7, 8] == "X" && m.board[7, 7] == "X";
    m.CellClick(0, 0);
  }

  /**
   * A whole local opening: the host wins the coin toss and places X, X and O (PlayLocalOpening);
   * the bot chooses "X", so the host plays "O" and moves first, at (13, 13). No five is
   * formed, so the turn passes to the bot and its move is requested.
   */
  method LocalOpeningScenario() returns (phase: Phase, localSymbol: string, turn: string,
                                         moveRequested: bool, stones: seq<string>)
    ensures phase == NormalPlay && localSymbol == "O" && turn == "X" && moveRequested
    ensures stones == ["X", "X", "O", "O"]
  {
    var m := new WifiMatch("Alice");
    m.ChooseLocalOpening();
    PlayLocalOpening(m);
    m.ApiChoiceResponse(Some("X"));
    assert m.turn == m.localSymbol == "O" && m.phase == NormalPlay;
    ghost var before := (m.board[7, 7], m.board[7, 8], m.board[0, 0]);
    m.CellClick(13, 13);
    assert m.board[13, 13] == "O";
    assert (m.board[7, 7], m.board[7, 8], m.board[0, 0]) == before;
    CornerStoneNoWin(m.board, "O");
    phase, localSymbol, turn := m.phase, m.localSymbol, m.turn;
    moveRequested := m.pending == NextMovePending;
    stones := [m.board[7, 7], m.board[7, 8], m.board[0, 0], m.board[13, 13]];
  }
}
