/** The game and store walked through concrete games with the two players of the app. */
module Scenarios {
  import opened Types
  import opened Engine
  import opened Scoreboard
  import opened StateStore

  const PlayerOne: Player := Player(1, "Player 1", "fa-x", "yellow")
  const PlayerTwo: Player := Player(2, "Player 2", "fa-o", "turquoise")

  const TopRowGame: seq<Move> :=
    [Move(1, PlayerOne), Move(4, PlayerTwo), Move(2, PlayerOne), Move(5, PlayerTwo), Move(3, PlayerOne)]

  lemma TopRowSquares()
    ensures SquaresOf(TopRowGame, PlayerOne) == [1, 2, 3]
    ensures SquaresOf(TopRowGame, PlayerTwo) == [4, 5]
  {
    var m5 := [Move(3, PlayerOne)];
    var m4 := [Move(5, PlayerTwo)] + m5;
    var m3 := [Move(2, PlayerOne)] + m4;
    var m2 := [Move(4, PlayerTwo)] + m3;
    var moves := [Move(1, PlayerOne)] + m2;
    assert moves == TopRowGame;
    assert m4[1..] == m5 && m3[1..] == m4 && m2[1..] == m3 && moves[1..] == m2;
    assert SquaresOf(m5, PlayerOne) == [3] && SquaresOf(m5, PlayerTwo) == [];
    assert SquaresOf(m4, PlayerOne) == [3] && SquaresOf(m4, PlayerTwo) == [5];
    assert SquaresOf(m3, PlayerOne) == [2, 3] && SquaresOf(m3, PlayerTwo) == [5];
    assert SquaresOf(m2, PlayerOne) == [2, 3] && SquaresOf(m2, PlayerTwo) == [4, 5];
  }

  /** After player 1's first move on square 1, player 2 is to move and the game is in progress. */
  lemma OneMoveScenario()
    ensures DeriveGame([Move(1, PlayerOne)], [PlayerOne, PlayerTwo]) ==
      GameView([Move(1, PlayerOne)], PlayerTwo, Status(false, None))
  {
    var moves := [Move(1, PlayerOne)];
    SquaresOfCons(moves[0], [], PlayerOne);
    SquaresOfCons(moves[0], [], PlayerTwo);
    assert moves == [moves[0]] + [];
    forall p | p == PlayerOne || p == PlayerTwo ensures !Wins(moves, p) {
      forall k | 0 <= k < |WinningPatterns| ensures !Covers(SquaresOf(moves, p), WinningPatterns[k]) {
        assert WinningPatterns[k][1] in WinningPatterns[k] && WinningPatterns[k][1] != 1;
      }
    }
    NoWinnerIff(moves, [PlayerOne, PlayerTwo]);
  }

  /** Player 1 takes the top row with moves 1, 2, 3 and wins; player 2 would move next. */
  lemma TopRowScenario()
    ensures DeriveGame(TopRowGame, [PlayerOne, PlayerTwo]) ==
      GameView(TopRowGame, PlayerTwo, Status(true, Some(PlayerOne)))
  {
    TopRowSquares();
    assert Covers(SquaresOf(TopRowGame, PlayerOne), WinningPatterns[0]);
    assert !Wins(TopRowGame, PlayerTwo) by {
      forall k | 0 <= k < |WinningPatterns| ensures !Covers([4, 5], WinningPatterns[k]) {
        assert WinningPatterns[k][0] !in [4, 5] || WinningPatterns[k][2] !in [4, 5];
      }
    }
    assert Wins(TopRowGame, PlayerOne);
    assert [PlayerOne, PlayerTwo][..1] == [PlayerOne];
    assert LastWinner(TopRowGame, [PlayerOne]) == Some(PlayerOne);
    assert LastWinner(TopRowGame, [PlayerOne, PlayerTwo]) == Some(PlayerOne);
    assert |TopRowGame| == 5;
    assert CurrentPlayer(TopRowGame, [PlayerOne, PlayerTwo]) == PlayerTwo;
  }

  /** A full board (X O X / X O O / O X X) on which neither player holds a line. */
  const TieGame: seq<Move> :=
    [Move(1, PlayerOne), Move(2, PlayerTwo), Move(3, PlayerOne), Move(5, PlayerTwo), Move(4, PlayerOne),
     Move(6, PlayerTwo), Move(8, PlayerOne), Move(7, PlayerTwo), Move(9, PlayerOne)]

  /** The squares a three-move log gives a player, move by move. */
  lemma SquaresOfThree(m1: Move, m2: Move, m3: Move, p: Player)
    ensures SquaresOf([m1, m2, m3], p) ==
      (if m1.player.id == p.id then [m1.squareId] else []) +
      (if m2.player.id == p.id then [m2.squareId] else []) +
      (if m3.player.id == p.id then [m3.squareId] else [])
  {
    assert [m1, m2, m3][1..] == [m2, m3] && [m2, m3][1..] == [m3] && [m3][1..] == [];
    assert SquaresOf([m3], p) == (if m3.player.id == p.id then [m3.squareId] else []);
    assert SquaresOf([m2, m3], p) ==
      (if m2.player.id == p.id then [m2.squareId] else []) + SquaresOf([m3], p);
  }

  lemma TieSquares()
    ensures SquaresOf(TieGame, PlayerOne) == [1, 3, 4, 8, 9]
    ensures SquaresOf(TieGame, PlayerTwo) == [2, 5, 6, 7]
  {
    var a := [Move(1, PlayerOne), Move(2, PlayerTwo), Move(3, PlayerOne)];
    var b := [Move(5, PlayerTwo), Move(4, PlayerOne), Move(6, PlayerTwo)];
    var c := [Move(8, PlayerOne), Move(7, PlayerTwo), Move(9, PlayerOne)];
    assert TieGame == (a + b) + c;
    forall p | p == PlayerOne || p == PlayerTwo
      ensures SquaresOf(TieGame, p) == SquaresOf(a, p) + SquaresOf(b, p) + SquaresOf(c, p)
    {
      SquaresOfConcat(a + b, c, p);
      SquaresOfConcat(a, b, p);
    }
    SquaresOfThree(a[0], a[1], a[2], PlayerOne);
    SquaresOfThree(b[0], b[1], b[2], PlayerOne);
    SquaresOfThree(c[0], c[1], c[2], PlayerOne);
    SquaresOfThree(a[0], a[1], a[2], PlayerTwo);
    SquaresOfThree(b[0], b[1], b[2], PlayerTwo);
    SquaresOfThree(c[0], c[1], c[2], PlayerTwo);
  }

  /** Nine moves and no line: the game is complete and tied. */
  lemma TieScenario()
    ensures DeriveStatus(TieGame, [PlayerOne, PlayerTwo]) == Status(true, None)
  {
    TieSquares();
    assert !Wins(TieGame, PlayerOne) by {
      forall k | 0 <= k < |WinningPatterns| ensures !Covers([1, 3, 4, 8, 9], WinningPatterns[k]) {
        assert 2 in WinningPatterns[k] || 5 in WinningPatterns[k] || 6 in WinningPatterns[k] || 7 in WinningPatterns[k];
      }
    }
    assert !Wins(TieGame, PlayerTwo) by {
      forall k | 0 <= k < |WinningPatterns| ensures !Covers([2, 5, 6, 7], WinningPatterns[k]) {
        assert 1 in WinningPatterns[k] || 3 in WinningPatterns[k] || 4 in WinningPatterns[k] ||
          8 in WinningPatterns[k];
      }
    }
    assert [PlayerOne, PlayerTwo][..1] == [PlayerOne];
    assert LastWinner(TieGame, [PlayerOne]) == None;
    assert LastWinner(TieGame, [PlayerOne, PlayerTwo]) == None;
  }

  /** A store over empty storage on which the players take squares 1, 4, 2, 5 and 3, in that order. */
  method PlayTopRow() returns (store: Store)
    ensures fresh(store) && store.Valid() && store.players == [PlayerOne, PlayerTwo]
    ensures store.State() == Document(TopRowGame, History([], []))
  {
    store := new Store("live-t3,storage-key", [PlayerOne, PlayerTwo], None);
    store.PlayerMove(1);
    assert store.State().curGameMoves == TopRowGame[..1];
    store.PlayerMove(4);
    assert store.State().curGameMoves == TopRowGame[..2];
    store.PlayerMove(2);
    assert store.State().curGameMoves == TopRowGame[..3];
    store.PlayerMove(5);
    assert store.State().curGameMoves == TopRowGame[..4];
    store.PlayerMove(3);
    assert store.State().curGameMoves == TopRowGame;
  }

  /** The scoreboard of a period holding only the top-row game: one win for player 1, none for player 2, no ties. */
  lemma TopRowStats()
    ensures StatsOf(Document([], History([GameRecord(TopRowGame, Status(true, Some(PlayerOne)))], [])),
      [PlayerOne, PlayerTwo]) == Stats([PlayerWithStats(PlayerOne, 1), PlayerWithStats(PlayerTwo, 0)], 0)
  {
    var record := GameRecord(TopRowGame, Status(true, Some(PlayerOne)));
    assert [record][..0] == [];
    assert CountOf([record], WonBy(PlayerOne.id)) == 1;
    assert CountOf([record], WonBy(PlayerTwo.id)) == 0;
    assert CountOf([record], Tie) == 0;
  }

  /**
   * Player 1 wins on the top row, player 2 would move next, and a reset archives
   * the game into the current period, crediting player 1 with one win.
   */
  method TopRowThenReset() returns (store: Store)
    ensures fresh(store) && store.Valid() && store.players == [PlayerOne, PlayerTwo]
    ensures store.State() == Document([], History([GameRecord(TopRowGame, Status(true, Some(PlayerOne)))], []))
  {
    store := PlayTopRow();
    var game := store.Game();
    TopRowScenario();
    assert game.curPlayer == PlayerTwo && game.status == Status(true, Some(PlayerOne));
    assert DeriveStatus(TopRowGame, [PlayerOne, PlayerTwo]) == Status(true, Some(PlayerOne));
    store.Reset();
    assert store.State().history.curRoundGames == [GameRecord(TopRowGame, Status(true, Some(PlayerOne)))];
  }

  /**
   * After the won game and its reset, the scoreboard shows one win for player 1;
   * a new round then moves the game to the archive and clears the scoreboard.
   */
  method TopRowThenNewRound() {
    var store := TopRowThenReset();
    TopRowStats();
    assert store.Stats().playerWithStats[0].wins == 1 && store.Stats().ties == 0;
    EmptyGameInProgress([PlayerOne, PlayerTwo]);
    store.NewRound();
    assert store.State().history.allGames == [GameRecord(TopRowGame, Status(true, Some(PlayerOne)))];
    assert store.Stats().playerWithStats[0].wins == 0 && store.Stats().ties == 0;
  }

  /** A tied game left on the board is archived by a reset and raises the tie count by one. */
  method TieThenReset() {
    var store := new Store("live-t3,storage-key", [PlayerOne, PlayerTwo], Some(Document(TieGame, History([], []))));
    TieScenario();
    store.Reset();
    var record := GameRecord(TieGame, Status(true, None));
    assert store.State().history.curRoundGames == [record];
    assert CountOf([record], Tie) == 1;
    assert store.Stats().ties == 1 && store.Stats().playerWithStats[0].wins == 0;
  }
}
