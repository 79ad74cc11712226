/**
 * The scoreboard: wins per player and ties, counted over the games of the
 * current scoreboard period only.
 */
module Scoreboard {
  import opened Types

  /** Which archived games a count picks out: those won by the player with an id, or ties. */
  datatype Outcome = WonBy(id: int) | Tie

  predicate Matches(r: GameRecord, o: Outcome) {
    match o
    case WonBy(id) => r.status.winner.Some? && r.status.winner.value.id == id
    case Tie => r.status.winner.None?
  }

  /** A player together with the number of games of the period that player won. */
  datatype PlayerWithStats = PlayerWithStats(player: Player, wins: nat)

  datatype Stats = Stats(playerWithStats: seq<PlayerWithStats>, ties: nat)

  /** Length of the list of games that match `o` (a filter followed by a length). */
  function CountOf(games: seq<GameRecord>, o: Outcome): nat
  {
    if games == [] then 0
    else CountOf(games[..|games| - 1], o) + (if Matches(games[|games| - 1], o) then 1 else 0)
  }

  /** Positions of the games that match `o`: the reference definition of a count. */
  ghost function Matching(games: seq<GameRecord>, o: Outcome): set<int>
  {
    set k | 0 <= k < |games| && Matches(games[k], o)
  }

  /** The count is the number of positions holding a matching game. */
  lemma {:induction false} CountIsMatchingSize(games: seq<GameRecord>, o: Outcome)
    ensures CountOf(games, o) == |Matching(games, o)|
  {
    if games != [] {
      var n := |games| - 1;
      var init := games[..n];
      CountIsMatchingSize(init, o);
      assert forall k :: 0 <= k < n ==> init[k] == games[k];
      if Matches(games[n], o) {
        assert Matching(games, o) == Matching(init, o) + {n};
      } else {
        assert Matching(games, o) == Matching(init, o);
      }
    }
  }

  /** Counts over two runs of games add up. */
  lemma {:induction false} CountConcat(a: seq<GameRecord>, b: seq<GameRecord>, o: Outcome)
    ensures CountOf(a + b, o) == CountOf(a, o) + CountOf(b, o)
  {
    if b != [] {
      var n := |b| - 1;
      CountConcat(a, b[..n], o);
      assert (a + b)[..|a + b| - 1] == a + b[..n];
    } else {
      assert a + b == a;
    }
  }

  /**
   * With two players of different ids, and every game of the period won by one
   * of them or tied, the two win counts and the tie count add up to the number
   * of games.
   */
  lemma {:induction false} RoundPartition(games: seq<GameRecord>, a: Player, b: Player)
    requires a.id != b.id
    requires forall k :: 0 <= k < |games| ==>
      Matches(games[k], Tie) || Matches(games[k], WonBy(a.id)) || Matches(games[k], WonBy(b.id))
    ensures CountOf(games, WonBy(a.id)) + CountOf(games, WonBy(b.id)) + CountOf(games, Tie) == |games|
  {
    if games != [] {
      var n := |games| - 1;
      assert forall k :: 0 <= k < n ==> games[..n][k] == games[k];
      RoundPartition(games[..n], a, b);
    }
  }

  /**
   * The stats view of a document: one entry per player, in list order, with the
   * number of games of the current period that player won, and the number of
   * tied games of the period.
   */
  function StatsOf(doc: Document, ps: seq<Player>): (s: Stats)
    ensures |s.playerWithStats| == |ps|
    ensures forall i :: 0 <= i < |ps| ==>
      s.playerWithStats[i].player == ps[i] &&
      s.playerWithStats[i].wins == |Matching(doc.history.curRoundGames, WonBy(ps[i].id))|
    ensures s.ties == |Matching(doc.history.curRoundGames, Tie)|
  {
    var games := doc.history.curRoundGames;
    assert forall o :: CountOf(games, o) == |Matching(games, o)| by {
      forall o { CountIsMatchingSize(games, o); }
    }
    Stats(seq(|ps|, i requires 0 <= i < |ps| => PlayerWithStats(ps[i], CountOf(games, WonBy(ps[i].id)))),
          CountOf(games, Tie))
  }

  /** The archive plays no part in the stats: documents agreeing on the period agree on them. */
  lemma StatsIgnoreArchive(d1: Document, d2: Document, ps: seq<Player>)
    requires d1.history.curRoundGames == d2.history.curRoundGames
    ensures StatsOf(d1, ps) == StatsOf(d2, ps)
  {
  }
}
