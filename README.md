# Gomoku match logic

This project models the game logic of a Gomoku (five in a row) app on a 14 x 14 board.
The app has two parts that talk over HTTP:

- the Android client's two game screens:
  - the Wi-Fi screen, where the local player meets a bot server;
  - the one-device screen, where two people share one phone;
- the Python bot server that the Wi-Fi screen talks to.

The modules are:

- `Basics`: the board size (14), coordinates, `Option`, the `Move` triple that the bot's
  opening batch is made of, and `OtherSymbol`, the "O after X, X after anything else" rule
  that the one-device turn flip, the Wi-Fi client's answer to the bot's choice and the
  server's opponent and announced symbols all use.
- `WinCheck`: the client's five-in-a-row detector, `checkWinWifi`.
  - `WinLine` is its specification as functions: per axis, `AxisCount` and `AxisLine`; over
    the axes, `FirstWin`.
  - `CheckWinWifi` is the loop itself, proved equal to `WinLine`.
  - The runs are capped at four cells each way. The origin is never bounds-checked or
    compared with the symbol.
- `WifiGame`: the Wi-Fi match controller. It is the class `WifiMatch`:
  - its fields are the screen's remembered variables (`board`, `gamePhase`,
    `localPlayerSymbol`, `opponentApiSymbol`, `currentTurnSymbol`,
    `localPlayerOpeningMovesCount`, `winnerName`, `winningCoords`, ...);
  - there is one method per event: the coin-toss buttons, the bot's opening batch, the local
    symbol choice, a cell click, and the replies to the symbol-choice and next-move requests;
  - a reply is a parameter, with `None` standing for the exception the request raised;
  - `pending` records which request a coroutine is waiting for;
  - the calls to `userDao.updateResult` are appended to a ghost log;
  - `Valid()` is the invariant every handler keeps. The two symbols differ. At most one
    request is outstanding. The bot's move is outstanding exactly when it is the bot's turn
    in normal play.
- `OneDevice`: the one-device screen's click handler. It writes the current turn's symbol on
  an empty cell and flips the turn. There is no win detection.
- `BotRules`: the server's evaluators `in_bounds` (`InBounds`), `would_make_five`
  (`MakesFive`, `WouldMakeFive`) and `score_cell` (`Score`, `ScoreCell`). Their runs are not
  capped.
- `BotServer`: the server's endpoints:
  - `next_move`: `NextMove`, and `NextMoveFor` for a given bot symbol;
  - `first_move`: `FirstMove`;
  - `announce_symbol`: `AnnounceSymbol`;
  - `choose_symbol`: `ChooseSymbol`.

  It also holds the `BotSession` class, which corrects the module-level `bot_symbol`
  finding below.

The server's randomness is handled as follows:

- `random.randint` and `random.choice` become parameters: `oracle`, `pick`, `tmp` and
  `draws`.
- `random.choice(best_moves)` picks `best_moves[oracle % |best_moves|]`.
- `NextMoveReachesEveryBest` shows that every best cell is reachable by some oracle.

## Model

| member | source | states |
|---|---|---|
| WinCheck.Run | app/src/main/java/com/example/mobilegomoku/GameWithWifiActivity.kt:427-443 | a run from step i holds at most 5 - i cells, so each direction adds at most four |
| WinCheck.RayCell | app/src/main/java/com/example/mobilegomoku/GameWithWifiActivity.kt:428-432 | the t-th cell a walk appends is t + 1 steps from the origin: cells are listed by increasing distance |
| WinCheck.RunCellsMatch | app/src/main/java/com/example/mobilegomoku/GameWithWifiActivity.kt:430 | every cell a run counts is on the board and holds the symbol |
| WinCheck.RayMatches | app/src/main/java/com/example/mobilegomoku/GameWithWifiActivity.kt:427-443 | every cell appended by a walk is on the board and holds the symbol |
| WinCheck.AxisLineShape | app/src/main/java/com/example/mobilegomoku/GameWithWifiActivity.kt:424-444 | an axis line has `count` cells (1 to 9): the origin first, then the forward cells, then the backward cells, each by increasing distance; every cell after the origin is on the board and holds the symbol |
| WinCheck.FirstWinNone | app/src/main/java/com/example/mobilegomoku/GameWithWifiActivity.kt:423-446 | the axis scan finds nothing exactly when no remaining axis counts five |
| WinCheck.FirstWinIsFirst | app/src/main/java/com/example/mobilegomoku/GameWithWifiActivity.kt:423-446 | a line the axis scan returns belongs to an axis counting at least five, and every earlier axis counts fewer |
| WinCheck.WinLineSpec | app/src/main/java/com/example/mobilegomoku/GameWithWifiActivity.kt:418-447 | null for the empty symbol; otherwise a line iff some axis counts at least five, and then it is the first such axis in the order (0,1), (1,0), (1,1), (1,-1); a returned line has 5 to 9 cells, starts at the origin, and every later cell is on the board and holds the symbol |
| WinCheck.Walk | app/src/main/java/com/example/mobilegomoku/GameWithWifiActivity.kt:427-443 | one inner loop appends exactly the run's cells, nearest first, and counts them |
| WinCheck.ScanAxis | app/src/main/java/com/example/mobilegomoku/GameWithWifiActivity.kt:424-443 | one outer iteration computes the axis's `count` and `lineCoords` |
| WinCheck.WinLine | app/src/main/java/com/example/mobilegomoku/GameWithWifiActivity.kt:418-447 | reference definition of the detector's result: null for the empty symbol, else the line of the first axis whose count reaches five (its properties are WinLineSpec's) |
| WinCheck.CheckWinWifi | app/src/main/java/com/example/mobilegomoku/GameWithWifiActivity.kt:418-447 | the detector returns exactly WinLine (whose properties WinLineSpec proves) and only reads the board |
| WifiGame.OpeningSymbol | app/src/main/java/com/example/mobilegomoku/GameWithWifiActivity.kt:279 | the local opening stones are X, X and then O: O exactly from the third stone on |
| WifiGame.CellAfter | app/src/main/java/com/example/mobilegomoku/GameWithWifiActivity.kt:118-124 | reference definition of a cell after a batch: the last move of the batch that targets the cell wins (CellAfterUntouched, CellAfterLastWins) |
| WifiGame.CellAfterUntouched | app/src/main/java/com/example/mobilegomoku/GameWithWifiActivity.kt:118-124 | a cell that no move of the batch targets keeps its content |
| WifiGame.CellAfterLastWins | app/src/main/java/com/example/mobilegomoku/GameWithWifiActivity.kt:118-124 | a cell holds the symbol of the last move of the batch that targets it |
| WifiGame.WifiMatch.constructor | app/src/main/java/com/example/mobilegomoku/GameWithWifiActivity.kt:90-104 | empty board, coin-toss phase and dialog, local X, bot O, turn X, no winner, no request outstanding |
| WifiGame.WifiMatch.ChooseLocalOpening | app/src/main/java/com/example/mobilegomoku/GameWithWifiActivity.kt:166-173 | the host button starts the local opening with local X, bot O, turn X |
| WifiGame.WifiMatch.ChooseApiOpening | app/src/main/java/com/example/mobilegomoku/GameWithWifiActivity.kt:176-180 | the bot button waits for the bot's opening and changes nothing else |
| WifiGame.WifiMatch.ApplyMovesToBoard | app/src/main/java/com/example/mobilegomoku/GameWithWifiActivity.kt:118-124 | every cell ends as CellAfter: on-board moves are written in list order, with no occupancy check; off-board moves are skipped; no other cell changes |
| WifiGame.WifiMatch.ApiOpeningResponse | app/src/main/java/com/example/mobilegomoku/GameWithWifiActivity.kt:180-191 | success: the bot's name is kept, its batch applied and the choice buttons shown, with the phase untouched; failure: the screen closes and the board is unchanged |
| WifiGame.WifiMatch.LocalSymbolChoice | app/src/main/java/com/example/mobilegomoku/GameWithWifiActivity.kt:234-259 | the local player takes the chosen symbol and the bot the other; the bot moves next in normal play and its move is requested |
| WifiGame.WifiMatch.CellClick | app/src/main/java/com/example/mobilegomoku/GameWithWifiActivity.kt:274-318 | nothing changes after game over, on an occupied cell, or outside the local opening and the local turn in normal play (in particular while the bot's move is outstanding); only the clicked cell can change; opening stones follow X, X, O with no win check, and the third asks for the bot's choice; a normal move places the local symbol and either ends the game for the host (logging a win unless the host is Guest) or passes the turn and requests the bot's move |
| WifiGame.WifiMatch.SetCell | app/src/main/java/com/example/mobilegomoku/GameWithWifiActivity.kt:280 | exactly one cell is written |
| WifiGame.WifiMatch.EndGame | app/src/main/java/com/example/mobilegomoku/GameWithWifiActivity.kt:133-143 | game over with the winner and line kept; one log entry for a non-Guest host, none otherwise |
| WifiGame.WifiMatch.PlaceOpeningStone | app/src/main/java/com/example/mobilegomoku/GameWithWifiActivity.kt:279-300 | the k-th opening stone is OpeningSymbol(k); after the third the phase becomes AWAITING_API_CHOICE and the bot's choice is requested |
| WifiGame.WifiMatch.PlaceLocalStone | app/src/main/java/com/example/mobilegomoku/GameWithWifiActivity.kt:302-317 | the local symbol is placed; a win (per WinLine) ends the game for the host with `updateResult(host, 1)` unless Guest; otherwise the turn passes to the bot and its move is requested |
| WifiGame.WifiMatch.ApiChoiceResponse | app/src/main/java/com/example/mobilegomoku/GameWithWifiActivity.kt:284-298 | success: the bot keeps its chosen symbol, the local player takes a different one and moves next in normal play; failure: the board is emptied, the count reset and the opening restarts |
| WifiGame.WifiMatch.ApiMoveResponse | app/src/main/java/com/example/mobilegomoku/GameWithWifiActivity.kt:126-158 | a reply naming an empty on-board cell places the bot's symbol there and ends the game (logging a loss unless Guest) or returns the turn; an occupied or off-board cell, or a failure, leaves the board unchanged and returns the turn |
| WifiGame.CornerStoneNoWin | app/src/main/java/com/example/mobilegomoku/GameWithWifiActivity.kt:418-447 | a stone at (13, 13) whose three neighbours are empty makes no five |
| WifiGame.PlayLocalOpening | app/src/main/java/com/example/mobilegomoku/GameWithWifiActivity.kt:274-300 | three clicks on a fresh local opening place X, X, O and request the bot's choice |
| WifiGame.LocalOpeningScenario | app/src/main/java/com/example/mobilegomoku/GameWithWifiActivity.kt:166-317 | coin toss to the host, opening X, X, O, the bot chooses X: the host plays O and moves first, and a non-winning move passes the turn to the bot and requests its move |
| WifiGame.WifiMatch.PlaceApiStone | app/src/main/java/com/example/mobilegomoku/GameWithWifiActivity.kt:130-147 | the bot's symbol is placed; a win ends the game for the bot with `updateResult(host, 0)` unless Guest; otherwise the turn returns to the local player |
| Basics.OtherSymbol | app/src/main/java/com/example/mobilegomoku/GameOneDeviceActivity.kt:101 | the other symbol is always X or O and never equal to its argument; the same rule is the client's answer to the bot's choice (GameWithWifiActivity.kt:288) and the server's opponent symbol (gomokuApi.py:100) |
| OneDevice.NextTurnAlternates | app/src/main/java/com/example/mobilegomoku/GameOneDeviceActivity.kt:41-101 | any turn other than X (such as the default "Player1") becomes X, and after that the turns alternate |
| OneDevice.OneDeviceGame.constructor | app/src/main/java/com/example/mobilegomoku/GameOneDeviceActivity.kt:56-63 | empty 14 x 14 board, and the turn is the symbol the screen was opened with |
| OneDevice.OneDeviceGame.Click | app/src/main/java/com/example/mobilegomoku/GameOneDeviceActivity.kt:99-102 | an occupied cell changes nothing; an empty cell receives the turn and the turn flips; no other cell changes; filled cells stay filled, and one more cell is filled per accepted click |
| BotRules.InBounds | gomokuApi.py:117-118 | `in_bounds`: 0 <= r < 14 and 0 <= c < 14 (AllCellsSpec shows the product of `next_move` enumerates exactly these cells) |
| BotRules.MakesFive | gomokuApi.py:120-136 | reference definition of `would_make_five`: some direction counts five or more with uncapped runs (WouldMakeFive computes it, MakesFiveIffScore relates it to Score) |
| BotRules.Score | gomokuApi.py:138-154 | reference definition of `score_cell`: the best count over DIRECTIONS (ScoreIsMax, ScoreRange, ScoreIgnoresOrigin) |
| BotRules.BestUpToIsMax | gomokuApi.py:140-153 | after k directions `best` is the largest run seen |
| BotRules.ScoreIsMax | gomokuApi.py:138-154 | `score_cell` is the largest count over DIRECTIONS and is reached by one of them |
| BotRules.MakesFiveIffScore | gomokuApi.py:120-154 | `would_make_five` holds iff `score_cell` is at least five |
| BotRules.ReachCellsHold | gomokuApi.py:126-133 | every cell a run counts is in bounds and holds the symbol |
| BotRules.LineCountBound | gomokuApi.py:122-133 | for an in-bounds cell, a direction counts between 1 and 14 |
| BotRules.ScoreRange | gomokuApi.py:138-154 | `score_cell` of an in-bounds cell is between 1 and 14 |
| BotRules.ReachIgnoresOrigin | gomokuApi.py:126-133 | a run does not depend on the cell being evaluated |
| BotRules.ScoreIgnoresOrigin | gomokuApi.py:120-154 | `score_cell` and `would_make_five` do not read b[r][c] |
| BotRules.ExtendRun | gomokuApi.py:125-128 | one `while` loop adds exactly the uncapped run to `count` |
| BotRules.WouldMakeFive | gomokuApi.py:120-136 | the loop returns exactly MakesFive |
| BotRules.ScoreCell | gomokuApi.py:138-154 | the loop returns exactly Score |
| BotServer.AllCellsSpec | gomokuApi.py:94 | the product lists exactly the cells `in_bounds` accepts, in row-major order |
| BotServer.EmptyAmong | gomokuApi.py:94-95 | the filter keeps exactly the empty cells, in order |
| BotServer.Empties | gomokuApi.py:94-95 | `empties` holds exactly the board's empty cells, in row-major order |
| BotServer.FirstFive | gomokuApi.py:102-108 | a scan finds nothing iff no listed cell makes five; otherwise a listed cell that makes five |
| BotServer.MaxScore | gomokuApi.py:110-111 | `max_score` bounds every score and is reached |
| BotServer.ScoringAmong | gomokuApi.py:112 | `best_moves` holds exactly the cells scoring `max_score` |
| BotServer.NextMoveFor | gomokuApi.py:86-115 | `next_move` for a given bot symbol: an HTTP error is always 409, and a reply is an empty on-board cell |
| BotServer.NextMove | gomokuApi.py:86-115 | `next_move` as deployed, with the bot fixed to X: 409 exactly on a full board, otherwise an empty cell, and an X five is always taken when one exists |
| BotServer.NextMoveSpec | gomokuApi.py:94-115 | 409 exactly when no cell is empty; otherwise the reply is an empty cell on the board |
| BotServer.FirstFiveIsRowMajorFirst | gomokuApi.py:102-108 | a scan returns the first cell in row-major order that makes five |
| BotServer.NextMoveTakesWin | gomokuApi.py:102-104 | if an empty cell completes five for the bot, the reply is the first such cell in row-major order |
| BotServer.NextMoveBlocks | gomokuApi.py:106-108 | with no win for the bot but one for the opponent, the reply is the first empty cell completing the opponent's five |
| BotServer.NextMoveBestScore | gomokuApi.py:110-115 | with no five for either side, the reply scores at least as much as every empty cell |
| BotServer.NextMoveInBestCase | gomokuApi.py:110-113 | in the third case the reply is the oracle's pick from `best_moves` |
| BotServer.NextMoveReachesEveryBest | gomokuApi.py:113 | every best-scoring empty cell is the reply for some oracle |
| BotServer.BestCellIsAmongBest | gomokuApi.py:110-112 | an empty cell of maximal score is in `best_moves` |
| BotServer.Neighbours | gomokuApi.py:40-44 | `neighbours` holds exactly the in-bounds cells orthogonally adjacent to (r1, c1), and at least two of them |
| BotServer.SecondStone | gomokuApi.py:45 | the second stone is in bounds and orthogonally adjacent to, and distinct from, the first |
| BotServer.CollectNeighbours | gomokuApi.py:40-44 | the four tests build exactly Neighbours |
| BotServer.RejectionLoop | gomokuApi.py:47-51 | the loop stops at the first draw that is neither earlier stone |
| BotServer.FirstMove | gomokuApi.py:31-59 | the reply is "WifiBot" with three in-bounds moves X, X, O; the second is adjacent to the first, and the third differs from both |
| BotServer.AnnounceSymbol | gomokuApi.py:61-73 | 400 exactly for a symbol other than X and O; otherwise X or O and different from the client's symbol |
| BotServer.AnnounceSymbolRoundTrip | gomokuApi.py:61-73 | announcing the bot's reply gives back the client's symbol: the two sides swap symbols |
| BotServer.ChooseSymbol | gomokuApi.py:75-84 | the choice is X or O |
| BotServer.AnnouncedSymbolIsForgotten | gomokuApi.py:11-104 | after the client announces X and the server replies O, `next_move` still plays X: on TwoFours it skips O's winning cell (0, 4) |
| BotServer.TwoFoursOWinsAtZeroFour | gomokuApi.py:94-104 | on TwoFours, (0, 4) completes O's five and no empty cell comes before it |
| BotServer.TwoFoursXNotAtZeroFour | gomokuApi.py:120-136 | on TwoFours, X cannot complete five at (0, 4) |
| BotServer.TwoFoursXStraightAtZeroFour | gomokuApi.py:120-136 | on TwoFours at (0, 4), X counts 1 vertically and 1 horizontally |
| BotServer.TwoFoursXDiagonalAtZeroFour | gomokuApi.py:120-136 | on TwoFours at (0, 4), X counts 1 and 2 on the diagonals |
| BotServer.TwoFoursXWinsAtOneFour | gomokuApi.py:120-136 | on TwoFours, (1, 4) completes X's five |
| BotServer.BotSession.constructor | gomokuApi.py:11 | the server starts with the bot playing X |
| BotServer.BotSession.Announce | gomokuApi.py:61-73 | the reply is AnnounceSymbol's, and a successful reply becomes the bot's symbol |
| BotServer.BotSession.Choose | gomokuApi.py:75-84 | the choice is ChooseSymbol's and becomes the bot's symbol |
| BotServer.BotSession.NextMove | gomokuApi.py:86-115 | `next_move` for the remembered bot symbol: 409 exactly on a full board, otherwise an empty cell; the first cell completing the bot's five, else the first completing the opponent's, else a cell of maximal score for the bot |
| BotServer.AnnounceThenTakeWin | gomokuApi.py:61-115 | on a fresh session, after the client announces X the bot replies O, and its next move on TwoFours is O's winning (0, 4) |
| BotServer.RememberedSymbolTakesWin | gomokuApi.py:100-104 | with the remembered symbol O, `next_move` on TwoFours takes O's win at (0, 4) |

## Left out

The client:

- Compose rendering and platform effects are left out:
  - layout and dialog styling;
  - Toasts and the applause sound;
  - highlighting of `winningCoords`;
  - the `onGameEnd` callback.

  `context.finish()` is kept only as the `closed` flag.
- The HTTP and JSON transport (`realFetchFirstMove`, `realFetchSymbolChoice`,
  `realAnnounceSymbolChoice`, `realMakeOpponentMove`) is I/O. Each reply is handed to a method
  as an already parsed value, or as `None` for an exception. Two consequences:
  - the opening batch is any list of moves, since its length is never checked;
  - the bot's chosen symbol is any string, since it is never validated.
- Coroutines and suspension are left out. Each launched block's continuation is one
  sequential method, and interleavings are not modelled. The `pending` field stands for the
  outstanding request. The model assumes that at most one request is outstanding at a time:
  `Valid()` ties `pending` to the phase. The source does not enforce this for the symbol
  buttons (see LocalSymbolChoice below).
- `userDao.updateResult` is outside this model. Each call is one entry of the ghost
  `statsLog`. The call's own coroutine is not modelled.
- `makeApiMove`'s `isOpening` argument is never passed as true, so the phase change at
  GameWithWifiActivity.kt:146 never runs. The model leaves it out.
- Kotlin `Int` is 32-bit. The coordinates involved are small, so unbounded integers change
  nothing here.
- WifiGame.WifiMatch.LocalSymbolChoice: when `realAnnounceSymbolChoice` fails, the
  exception escapes the coroutine launched at GameWithWifiActivity.kt:235 and 248, uncaught.
  It reaches the coroutine scope's uncaught-exception handling. The buttons stay shown, but
  the choice was not made. The model records the failure as a call that changes nothing, so
  in the model the player can simply choose again.
- WifiGame.WifiMatch.LocalSymbolChoice: the model takes one tap per choice. In the source the
  "Play as X/O" buttons stay shown while `showSymbolChoiceDialog` is set (line 227). The flag
  is cleared only after the announce returns (lines 236-240 and 249-253). A second tap while
  the announce is in flight launches a second announce and a second `makeApiMove()`, so two
  next-move requests are outstanding. The later reply runs lines 129-147 with no phase or turn
  check. It can place a bot stone on the local player's turn, or after the game is over.
  The model does not capture this double-tap window.
- The screen's own navigation is not part of this model, and neither are the other screens
  (main, stats, single-player placeholder) or the Room database.

The server:

- FastAPI and pydantic request validation is left out:
  - `SymbolIn` rejects anything but "X" and "O" with a 422 before the handler runs, so the
    400 branch of `announce_symbol` is unreachable over HTTP. `AnnounceSymbol` models the
    handler alone.
  - Row lengths of `BoardIn` are never validated, so a 14 x 14 board (`IsBoard`) is a
    precondition.
- `random` becomes parameters: `oracle`, `pick`, `tmp` and `draws`.
- BotServer.FirstMove: the rejection loop of `first_move` draws until it succeeds. The
  model consumes a finite list `draws` and returns `None` if every draw is rejected. This
  case has probability 0 in the source.
- BotServer.ChooseSymbol: its docstring promises the symbol with fewer stones on the board.
  The code ignores the board and picks at random. The model follows the code.

Facts about the source that the model keeps as they are:

- The detector's line lists the origin first, then the forward cells, then the backward cells.
  It is not ordered along the axis.
- Local opening stones are placed with no win check (GameWithWifiActivity.kt:279-283).
- The bot's opening batch is applied with no length, occupancy or win check (lines 118-124).
- After the bot's opening, the local player chooses a symbol, and then the bot moves
  (lines 234-259).

## Findings

| source | as written | input that shows it | evidently intended | confidence | as-written member | corrected member |
|---|---|---|---|---|---|---|
| gomokuApi.py:71 | `bot_symbol = ...` in `announce_symbol` (and likewise at line 82 in `choose_symbol`) binds a local variable, because there is no `global` statement. The module-level `bot_symbol` (line 11) stays "X", and `next_move` (line 100) always plays X. | The client announces X, and the server replies that it plays O. Then comes the board with O at (0,0)-(0,3) and X at (1,0)-(1,3). `next_move` skips O's winning cell (0,4) and plays a cell that completes X's five. | The reply is remembered, as the docstring says ("remember it globally"), and `next_move` plays the symbol the bot announced or chose. With O it takes the win at (0,4). | high; not executed | BotServer.AnnouncedSymbolIsForgotten | BotServer.BotSession.NextMove |
