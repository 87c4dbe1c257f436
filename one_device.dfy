/**
 * The two-players-one-device screen (`GameScreenOneDevice`): a click on an empty cell
 * writes the current turn's symbol there and passes the turn. There is no win detection.
 */
module OneDevice {
  import opened Basics

  /** From any start, including the default "Player1", the turns alternate X and O after the first stone. */
  lemma NextTurnAlternates(turn: string)
    ensures OtherSymbol(OtherSymbol(turn)) == (if turn == "X" || turn == "O" then turn else "O")
    ensures turn != "X" ==> OtherSymbol(turn) == "X"
  {
  }

  class OneDeviceGame {
    /** `board`: 14 rows of 14 cells, "" for an empty cell. */
    const board: array2<string>
    /** `currentPlayerTurn`. */
    var currentPlayerTurn: string

    ghost predicate Valid()
      reads this
    {
      board.Length0 == Size && board.Length1 == Size
    }

    /** The occupied cells. */
    ghost function Filled(): set<Coord>
      requires Valid()
      reads this, board
    {
      set i, j | 0 <= i < Size && 0 <= j < Size && board[i, j] != "" :: (i, j)
    }

    /** The screen's first composition: an empty board, and the turn is the symbol it was opened with. */
    constructor (playerSymbol: string)
      ensures Valid() && fresh(board)
      ensures forall i, j :: 0 <= i < Size && 0 <= j < Size ==> board[i, j] == ""
      ensures currentPlayerTurn == playerSymbol
    {
      board := new string[Size, Size]((i, j) => "");
      currentPlayerTurn := playerSymbol;
    }

    /**
     * The click handler of cell (row, col). An occupied cell changes nothing. An empty one
     * receives the current turn and no other cell changes; the turn passes. Occupied cells
     * stay occupied, and the number of occupied cells grows by one, unless the turn was the
     * empty string (writing "" leaves the cell empty).
     */
    method Click(row: int, col: int)
      requires Valid() && 0 <= row < Size && 0 <= col < Size
      modifies this, board
      ensures Valid()
      ensures old(board[row, col]) != "" ==> unchanged(this) && unchanged(board)
      ensures old(board[row, col]) == "" ==>
                && board[row, col] == old(currentPlayerTurn)
                && currentPlayerTurn == OtherSymbol(old(currentPlayerTurn))
      ensures forall i, j :: 0 <= i < Size && 0 <= j < Size && (i, j) != (row, col) ==>
                board[i, j] == old(board[i, j])
      ensures old(Filled()) <= Filled()
      ensures old(board[row, col]) == "" && old(currentPlayerTurn) != "" ==>
                Filled() == old(Filled()) + {(row, col)} && |Filled()| == |old(Filled())| + 1
    {
      ghost var before := Filled();
      if board[row, col] == "" {
        board[row, col] := currentPlayerTurn;
        currentPlayerTurn := OtherSymbol(currentPlayerTurn);
        if board[row, col] != "" {
          assert Filled() == before + {(row, col)};
        }
      }
      assert before <= Filled();
    }
  }
}
