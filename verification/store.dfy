/**
 * The store: it owns the document kept in storage under one key, derives the
 * game and stats views from it on every read, and changes it only by reading
 * it, changing a copy and writing the copy back, with one change notification
 * per write.
 */
module StateStore {
  import opened Types
  import opened Engine
  import opened Scoreboard

  /**
   * What the write helper is handed: a whole new document, a function of the
   * stored one, or a value that is neither an object nor a function (a string,
   * a number, a boolean or undefined).
   */
  datatype SaveArg = NewDoc(doc: Document) | Updater(update: Document -> Document) | Other

  datatype SaveOutcome = Saved | InvalidArgument(message: string)

  /** The record a reset archives: the game as it stands, when it is complete; nothing otherwise. */
  function Archived(moves: seq<Move>, ps: seq<Player>): (a: seq<GameRecord>)
    ensures |a| <= 1
    ensures a != [] <==> DeriveStatus(moves, ps).isComplete
    ensures a != [] ==> a[0].moves == moves && a[0].status == DeriveStatus(moves, ps)
  {
    var status := DeriveStatus(moves, ps);
    if status.isComplete then [GameRecord(moves, status)] else []
  }

  /** Every archived game is complete, and its winner, if any, is one of the players. */
  predicate RecordsSound(games: seq<GameRecord>, ps: seq<Player>) {
    forall k :: 0 <= k < |games| ==>
      games[k].status.isComplete &&
      (games[k].status.winner.Some? ==> games[k].status.winner.value in ps)
  }

  /** What a reset archives keeps the history sound. */
  lemma ArchivedSound(games: seq<GameRecord>, moves: seq<Move>, ps: seq<Player>)
    requires RecordsSound(games, ps)
    ensures RecordsSound(games + Archived(moves, ps), ps)
  {
    CompletionRule(moves, ps);
  }

  /**
   * For two players with different ids and a sound period, the scoreboard
   * accounts for every game of the period exactly once.
   */
  lemma ScoreboardAddsUp(doc: Document, ps: seq<Player>)
    requires |ps| == 2 && ps[0].id != ps[1].id
    requires RecordsSound(doc.history.curRoundGames, ps)
    ensures StatsOf(doc, ps).playerWithStats[0].wins + StatsOf(doc, ps).playerWithStats[1].wins +
      StatsOf(doc, ps).ties == |doc.history.curRoundGames|
  {
    var games := doc.history.curRoundGames;
    RoundPartition(games, ps[0], ps[1]);
    CountIsMatchingSize(games, WonBy(ps[0].id));
    CountIsMatchingSize(games, WonBy(ps[1].id));
    CountIsMatchingSize(games, Tie);
  }

  class Store {
    const storageKey: string
    /** The players, in turn order. */
    const players: seq<Player>
    /** What storage holds under `storageKey`; `None` when nothing was ever written there. */
    var slot: Option<Document>
    /** Number of change notifications dispatched so far: one per write. */
    var notifications: nat

    ghost predicate Valid()
      reads this
    {
      |players| >= 2
    }

    /** The document as read back from storage, the default when there is none. */
    function State(): Document
      reads this
    {
      ReadSlot(slot)
    }

    /** The stats view of the stored document. */
    function Stats(): Stats
      reads this
    {
      StatsOf(State(), players)
    }

    /** A store over storage that currently holds `stored` under `key`. */
    constructor (key: string, players: seq<Player>, stored: Option<Document>)
      requires |players| >= 2
      ensures Valid()
      ensures storageKey == key && this.players == players
      ensures slot == stored && notifications == 0
    {
      storageKey := key;
      this.players := players;
      slot := stored;
      notifications := 0;
    }

    /**
     * The game view: the stored move log, the player whose turn it is, and the
     * status found by scanning every player against every winning pattern.
     */
    method Game() returns (g: GameView)
      requires Valid()
      ensures g == DeriveGame(State().curGameMoves, players)
    {
      var state := State();
      var moves := state.curGameMoves;
      var curPlayer := players[|moves| % 2];
      var winner: Option<Player> := None;
      var i := 0;
      while i < |players|
        invariant 0 <= i <= |players|
        invariant winner == LastWinner(moves, players[..i])
      {
        var player := players[i];
        var selected := SquaresOf(moves, player);
        var j := 0;
        while j < |WinningPatterns|
          invariant 0 <= j <= |WinningPatterns|
          invariant winner ==
            if exists k :: 0 <= k < j && Covers(selected, WinningPatterns[k]) then Some(player)
            else LastWinner(moves, players[..i])
        {
          if Covers(selected, WinningPatterns[j]) {
            winner := Some(player);
          }
          j := j + 1;
        }
        assert players[..i + 1][..i] == players[..i];
        i := i + 1;
      }
      assert players[..i] == players;
      g := GameView(moves, curPlayer, Status(winner.Some? || |moves| == 9, winner));
    }

    /**
     * Appends the current player's move on `squareId`. The caller checks that the
     * square is on the board and still free.
     */
    method PlayerMove(squareId: int)
      requires Valid()
      requires OnBoard(squareId) && !Occupied(State().curGameMoves, squareId)
      modifies this
      ensures Valid()
      ensures State().curGameMoves ==
        old(State().curGameMoves) + [Move(squareId, CurrentPlayer(old(State().curGameMoves), players))]
      ensures State().history == old(State().history)
      ensures notifications == old(notifications) + 1
      ensures WellFormed(old(State().curGameMoves)) ==>
        WellFormed(State().curGameMoves) && |State().curGameMoves| <= 9
      ensures Alternating(old(State().curGameMoves), players) ==> Alternating(State().curGameMoves, players)
    {
      var stateClone := State();
      var game := Game();
      stateClone := stateClone.(curGameMoves := stateClone.curGameMoves + [Move(squareId, game.curPlayer)]);
      var outcome := SaveState(NewDoc(stateClone));
      MoveKeepsInvariants(old(State().curGameMoves), players, squareId);
    }

    /**
     * Ends the current game: archives it into the current period when it is
     * complete, and always clears the move log. The scoreboard is kept.
     */
    method Reset()
      requires Valid()
      modifies this
      ensures Valid()
      ensures State().curGameMoves == []
      ensures State().history.allGames == old(State().history.allGames)
      ensures !DeriveStatus(old(State().curGameMoves), players).isComplete ==>
        State().history.curRoundGames == old(State().history.curRoundGames)
      ensures DeriveStatus(old(State().curGameMoves), players).isComplete ==>
        State().history.curRoundGames == old(State().history.curRoundGames) +
          [GameRecord(old(State().curGameMoves), DeriveStatus(old(State().curGameMoves), players))]
      ensures notifications == old(notifications) + 1
      ensures RecordsSound(old(State().history.curRoundGames), players) ==>
        RecordsSound(State().history.curRoundGames, players)
      ensures forall o :: (CountOf(State().history.curRoundGames, o) ==
        CountOf(old(State().history.curRoundGames), o) +
        (if DeriveStatus(old(State().curGameMoves), players).isComplete &&
            Matches(GameRecord(old(State().curGameMoves), DeriveStatus(old(State().curGameMoves), players)), o)
         then 1 else 0))
    {
      var stateClone := State();
      // The game view is read once; the stored document does not change between its reads.
      var game := Game();
      if game.status.isComplete {
        var rounds := stateClone.history.curRoundGames + [GameRecord(game.moves, game.status)];
        stateClone := stateClone.(history := stateClone.history.(curRoundGames := rounds));
      }
      stateClone := stateClone.(curGameMoves := []);
      var outcome := SaveState(NewDoc(stateClone));
      ghost var before := old(State());
      assert State().history.curRoundGames ==
        before.history.curRoundGames + Archived(before.curGameMoves, players);
      if RecordsSound(before.history.curRoundGames, players) {
        ArchivedSound(before.history.curRoundGames, before.curGameMoves, players);
      }
      forall o
        ensures CountOf(State().history.curRoundGames, o) ==
          CountOf(before.history.curRoundGames, o) + CountOf(Archived(before.curGameMoves, players), o)
      {
        CountConcat(before.history.curRoundGames, Archived(before.curGameMoves, players), o);
      }
    }

    /**
     * Starts a new scoreboard period: resets the game, then moves every game of
     * the period, in order, onto the end of the archive.
     */
    method NewRound()
      requires Valid()
      modifies this
      ensures Valid()
      ensures State().curGameMoves == [] && State().history.curRoundGames == []
      ensures State().history.allGames ==
        old(State().history.allGames) + old(State().history.curRoundGames) +
        Archived(old(State().curGameMoves), players)
      ensures notifications == old(notifications) + 2
      ensures forall i :: 0 <= i < |players| ==> Stats().playerWithStats[i].wins == 0
      ensures Stats().ties == 0
      ensures RecordsSound(old(State().history.allGames), players) &&
              RecordsSound(old(State().history.curRoundGames), players) ==>
        RecordsSound(State().history.allGames, players)
      ensures forall o :: (CountOf(State().history.allGames, o) ==
        CountOf(old(State().history.allGames), o) + CountOf(old(State().history.curRoundGames), o) +
        CountOf(Archived(old(State().curGameMoves), players), o))
    {
      ghost var before := old(State());
      Reset();
      var stateClone := State();
      var archive := stateClone.history.allGames + stateClone.history.curRoundGames;
      stateClone := stateClone.(history := History([], archive));
      var outcome := SaveState(NewDoc(stateClone));
      var rounds := before.history.curRoundGames + Archived(before.curGameMoves, players);
      assert State().history.allGames == before.history.allGames + rounds;
      if RecordsSound(before.history.curRoundGames, players) {
        ArchivedSound(before.history.curRoundGames, before.curGameMoves, players);
      }
      forall o
        ensures CountOf(State().history.allGames, o) ==
          CountOf(before.history.allGames, o) + CountOf(before.history.curRoundGames, o) +
          CountOf(Archived(before.curGameMoves, players), o)
      {
        CountConcat(before.history.allGames, rounds, o);
        CountConcat(before.history.curRoundGames, Archived(before.curGameMoves, players), o);
      }
    }

    /**
     * The write helper: stores a new document, or the result of applying an
     * updater to the stored one, and dispatches one change notification; a
     * value that is neither an object nor a function is refused and nothing is
     * written.
     */
    method SaveState(arg: SaveArg) returns (outcome: SaveOutcome)
      modifies this
      ensures arg.Other? ==>
        outcome == InvalidArgument("Invalid argument passed") &&
        slot == old(slot) && notifications == old(notifications)
      ensures arg.NewDoc? ==> outcome == Saved && State() == arg.doc
      ensures arg.Updater? ==> outcome == Saved && State() == arg.update(old(State()))
      ensures outcome == Saved ==> slot.Some? && notifications == old(notifications) + 1
    {
      var preState := State();
      var newState: Document;
      match arg {
        case Updater(update) =>
          newState := update(preState);
        case NewDoc(doc) =>
          newState := doc;
        case Other =>
          return InvalidArgument("Invalid argument passed");
      }
      slot := Some(newState);
      notifications := notifications + 1;
      outcome := Saved;
    }
  }
}
