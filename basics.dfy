/** Types shared by the Android client and the bot server. */
module Basics {

  /** Side of every board in the game: the client builds `List(14)` rows of 14 cells and the server's SIZE is 14. */
  const Size: int := 14

  /** A board position as (row, column). */
  type Coord = (int, int)

  /** Kotlin's nullable results. */
  datatype Option<T> = None | Some(value: T)

  /** One stone of an opening batch: the bot server's `Move` model and the client's parsed `Move`. */
  datatype Move = Move(row: int, col: int, symbol: string)

  /**
   * The other symbol: "O" after "X", and "X" after anything else. The one-device turn flip,
   * the Wi-Fi client's answer to a symbol choice and the server's opponent and announced
   * symbols all use this rule.
   */
  function OtherSymbol(s: string): (t: string)
    ensures t == "X" || t == "O"
    ensures t != s
  {
    if s == "X" then "O" else "X"
  }
}
