/** The Connect Four rule engine, seen from the relay.

    The rules themselves live in the `connect4` module, which is not part of this
    model. What the relay relies on is: a move is either accepted, landing in some
    row and possibly winning, or rejected with a human-readable reason; an accepted
    move is appended to the engine's ordered move history; a rejected move changes
    nothing. The engine's answer to a particular move is therefore an input, a
    `Verdict`, rather than something computed here. */
module Connect4 {

  /** PLAYER1 and PLAYER2 of the engine. */
  datatype Player = Player1 | Player2

  /** One entry of the move history: who played, in which column, and the row the
      piece landed in. */
  datatype Move = Move(player: Player, column: int, row: int)

  /** The engine's answer to `play(player, column)`: the row returned together with
      the `last_player_won` flag read right after, or the message of the
      `ValueError` it raised. */
  datatype Verdict = Accepted(row: int, won: bool) | Rejected(message: string)

  /** The part of the engine's state the relay observes: the history `get_moves()`
      returns and the `last_player_won` flag. */
  datatype Game = Game(moves: seq<Move>, lastPlayerWon: bool)

  /** A freshly constructed engine: no moves yet, nobody has won. */
  const NewGame: Game := Game([], false)

  /** `game.play(player, column)` with the engine's verdict: the history is only
      ever extended, by exactly the accepted move and the row the engine
      returned; a rejected move leaves the engine as it was. */
  function Apply(g: Game, player: Player, column: int, v: Verdict): (r: Game)
    ensures r.moves == g.moves + (if v.Accepted? then [Move(player, column, v.row)] else [])
    ensures v.Accepted? ==> r.lastPlayerWon == v.won
    ensures v.Rejected? ==> r == g
  {
    match v
    case Accepted(row, won) => Game(g.moves + [Move(player, column, row)], won)
    case Rejected(_) => g
  }
}
