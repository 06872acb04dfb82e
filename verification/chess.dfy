/**
 * The chess rules engine (python-chess) as the game sees it: an abstract oracle.
 *
 * A board is identified by the moves pushed onto it since the standard starting
 * position (python-chess keeps exactly this move stack), so applying a move is
 * appending it. Everything else the engine answers about a position, including
 * SAN parsing, is a field of `Rules`; every property proved in this project holds
 * for every choice of these functions.
 */
module Chess {

  datatype Option<+T> = None | Some(value: T)

  /** A move object returned by the engine; it is only ever stored and compared. */
  datatype Move = Move(uci: string)

  /** The moves applied to the board since the starting position, oldest first. */
  type History = seq<Move>

  datatype Rules = Rules(
    /** `Board.parse_san`: the move a text denotes in the position, if it is legal. */
    parse: (History, string) -> Option<Move>,
    /** `Board.push` handed the raw player text: an opaque attempt that may push a move. */
    pushObject: (History, string) -> Option<Move>,
    /** `Board.is_game_over`. */
    isGameOver: History -> bool,
    /** `Board.turn == chess.WHITE`. */
    whiteToMove: History -> bool,
    /** `Board.board_fen`. */
    boardFen: History -> string,
    /** The legal-move list cut out of `str(board.legal_moves)`. */
    legalMovesText: History -> string,
    /** The movetext cut out of the PGN rendering of the game. */
    movetext: History -> string
  )

  /** One more move on the board, everything before it kept. */
  predicate PushedOne(before: History, after: History)
  {
    |after| == |before| + 1 && after[..|before|] == before
  }
}
