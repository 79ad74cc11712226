/** The persisted document of the tic-tac-toe store and the values it is made of. */
module Types {

  datatype Option<+T> = None | Some(value: T)

  /** One of the two players handed to the store when it is built. */
  datatype Player = Player(id: int, name: string, iconClass: string, colorClass: string)

  /** A move: the square taken (numbered 1 to 9) and the player who took it. */
  datatype Move = Move(squareId: int, player: Player)

  /** Whether a game is over and who won it; `None` on a complete game is a tie. */
  datatype Status = Status(isComplete: bool, winner: Option<Player>)

  /** A finished game as archived in the history: its move log and its final status. */
  datatype GameRecord = GameRecord(moves: seq<Move>, status: Status)

  /** Games of the current scoreboard period, and the permanent archive. */
  datatype History = History(curRoundGames: seq<GameRecord>, allGames: seq<GameRecord>)

  /** The whole persisted state: the move log of the game in progress and the history. */
  datatype Document = Document(curGameMoves: seq<Move>, history: History)

  /** The document used whenever storage holds nothing for the store's key. */
  const InitialValue: Document := Document([], History([], []))

  /** Reads the storage slot: what it holds, or the empty default when it holds nothing. */
  function ReadSlot(slot: Option<Document>): (d: Document)
    ensures slot.None? ==> d.curGameMoves == [] && d.history.curRoundGames == [] && d.history.allGames == []
    ensures slot.Some? ==> d == slot.value
  {
    match slot
    case None => InitialValue
    case Some(stored) => stored
  }
}
