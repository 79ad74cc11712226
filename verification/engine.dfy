/**
 * Derivation of the current game from its move log: whose turn it is, who has
 * won, and whether the game is over. Squares of the 3x3 board are numbered
 * 1 to 9, row by row.
 */
module Engine {
  import opened Types

  /** The eight winning triples, in the order the store scans them. */
  const WinningPatterns: seq<seq<int>> :=
    [[1, 2, 3], [1, 5, 9], [1, 4, 7], [2, 5, 8], [3, 5, 7], [3, 6, 9], [4, 5, 6], [7, 8, 9]]

  /** The derived view of the game in progress. */
  datatype GameView = GameView(moves: seq<Move>, curPlayer: Player, status: Status)

  predicate OnBoard(n: int) { 1 <= n <= 9 }

  /** Row (0..2) and column (0..2) of a square of the board. */
  function Row(n: int): int { if n <= 3 then 0 else if n <= 6 then 1 else 2 }
  function Col(n: int): int { n - 1 - 3 * Row(n) }

  /**
   * An independent description of a winning line: three distinct squares, in
   * increasing order, sharing a row, a column, the main diagonal or the other one.
   */
  predicate IsLine(t: seq<int>) {
    |t| == 3 && OnBoard(t[0]) && OnBoard(t[1]) && OnBoard(t[2]) && t[0] < t[1] < t[2] &&
    ((Row(t[0]) == Row(t[1]) && Row(t[1]) == Row(t[2])) ||
     (Col(t[0]) == Col(t[1]) && Col(t[1]) == Col(t[2])) ||
     (Row(t[0]) == Col(t[0]) && Row(t[1]) == Col(t[1]) && Row(t[2]) == Col(t[2])) ||
     (Row(t[0]) + Col(t[0]) == 2 && Row(t[1]) + Col(t[1]) == 2 && Row(t[2]) + Col(t[2]) == 2))
  }

  /** The table of winning patterns is exactly the set of lines of the board. */
  lemma PatternsAreTheLines()
    ensures |WinningPatterns| == 8
    ensures forall k :: 0 <= k < |WinningPatterns| ==> IsLine(WinningPatterns[k])
    ensures forall a, b, c :: IsLine([a, b, c]) ==> [a, b, c] in WinningPatterns
  {
  }

  /** True when some move of the log took square `s`. */
  predicate Occupied(moves: seq<Move>, s: int) {
    exists i :: 0 <= i < |moves| && moves[i].squareId == s
  }

  /** The squares taken by the player with `p`'s id, in move order. */
  function SquaresOf(moves: seq<Move>, p: Player): seq<int>
  {
    if moves == [] then []
    else (if moves[0].player.id == p.id then [moves[0].squareId] else []) + SquaresOf(moves[1..], p)
  }

  /** A square is among a player's squares exactly when a move of that player's id took it. */
  lemma {:induction false} SquaresOfMembers(moves: seq<Move>, p: Player)
    ensures |SquaresOf(moves, p)| <= |moves|
    ensures forall v :: v in SquaresOf(moves, p) <==>
      exists i :: 0 <= i < |moves| && moves[i].player.id == p.id && moves[i].squareId == v
  {
    if moves != [] {
      SquaresOfMembers(moves[1..], p);
      assert forall i :: 0 < i < |moves| ==> moves[i] == moves[1..][i - 1];
    }
  }

  /** Every square of `pattern` is among `squares`. */
  predicate Covers(squares: seq<int>, pattern: seq<int>) {
    forall v :: v in pattern ==> v in squares
  }

  /** The player with `p`'s id holds all three squares of some winning pattern. */
  predicate Wins(moves: seq<Move>, p: Player) {
    exists k :: 0 <= k < |WinningPatterns| && Covers(SquaresOf(moves, p), WinningPatterns[k])
  }

  /** The last player of `ps`, in list order, that wins on `moves`, if any. */
  function LastWinner(moves: seq<Move>, ps: seq<Player>): Option<Player>
  {
    if ps == [] then None
    else if Wins(moves, ps[|ps| - 1]) then Some(ps[|ps| - 1])
    else LastWinner(moves, ps[..|ps| - 1])
  }

  /** There is no winner exactly when no player of the list holds a line. */
  lemma {:induction false} NoWinnerIff(moves: seq<Move>, ps: seq<Player>)
    ensures LastWinner(moves, ps).None? <==> forall i :: 0 <= i < |ps| ==> !Wins(moves, ps[i])
  {
    if ps != [] {
      var n := |ps| - 1;
      var init := ps[..n];
      NoWinnerIff(moves, init);
      assert forall i :: 0 <= i < n ==> init[i] == ps[i];
    }
  }

  /**
   * A reported winner is a player of the list who holds a line, and no player
   * after it in the list holds one: later matches overwrite earlier ones.
   */
  lemma {:induction false} WinnerIsLastWinning(moves: seq<Move>, ps: seq<Player>) returns (i: int)
    requires LastWinner(moves, ps).Some?
    ensures 0 <= i < |ps| && ps[i] == LastWinner(moves, ps).value && Wins(moves, ps[i])
    ensures forall j :: i < j < |ps| ==> !Wins(moves, ps[j])
  {
    var n := |ps| - 1;
    if Wins(moves, ps[n]) {
      i := n;
    } else {
      var init := ps[..n];
      i := WinnerIsLastWinning(moves, init);
      assert forall j :: 0 <= j < n ==> init[j] == ps[j];
    }
  }

  /** With two players both holding a line, the later one in the list is reported. */
  lemma {:induction false} BothWinLaterReported(moves: seq<Move>, ps: seq<Player>)
    requires |ps| == 2 && Wins(moves, ps[0]) && Wins(moves, ps[1])
    ensures LastWinner(moves, ps) == Some(ps[1])
  {
  }

  /** The player to move next: turn parity over the move log. */
  function CurrentPlayer(moves: seq<Move>, ps: seq<Player>): (p: Player)
    requires |ps| >= 2
    ensures |moves| % 2 == 0 ==> p == ps[0]
    ensures |moves| % 2 == 1 ==> p == ps[1]
  {
    ps[|moves| % 2]
  }

  /** Status of the game: the last winning player, and complete on a win or nine moves. */
  function DeriveStatus(moves: seq<Move>, ps: seq<Player>): Status
  {
    var winner := LastWinner(moves, ps);
    Status(winner.Some? || |moves| == 9, winner)
  }

  /** An empty move log has no winner and is not complete. */
  lemma {:induction false} EmptyGameInProgress(ps: seq<Player>)
    ensures DeriveStatus([], ps) == Status(false, None)
  {
    forall p ensures !Wins([], p) {
      forall k | 0 <= k < |WinningPatterns| ensures !Covers(SquaresOf([], p), WinningPatterns[k]) {
        assert WinningPatterns[k][0] in WinningPatterns[k];
      }
    }
    NoWinnerIff([], ps);
  }

  /** Taking a move off the front of the log takes its square off the front of its player's squares. */
  lemma SquaresOfCons(m: Move, rest: seq<Move>, p: Player)
    ensures SquaresOf([m] + rest, p) == (if m.player.id == p.id then [m.squareId] else []) + SquaresOf(rest, p)
  {
  }

  /** The squares of a log split in two are the squares of each part, in order. */
  lemma {:induction false} SquaresOfConcat(a: seq<Move>, b: seq<Move>, p: Player)
    ensures SquaresOf(a + b, p) == SquaresOf(a, p) + SquaresOf(b, p)
  {
    if a == [] {
      assert a + b == b;
    } else {
      SquaresOfConcat(a[1..], b, p);
      assert (a + b)[1..] == a[1..] + b;
    }
  }

  /** The game is complete exactly when some player holds a line or nine moves were made. */
  lemma CompletionRule(moves: seq<Move>, ps: seq<Player>)
    ensures DeriveStatus(moves, ps).isComplete <==>
      (exists i :: 0 <= i < |ps| && Wins(moves, ps[i])) || |moves| == 9
    ensures DeriveStatus(moves, ps).winner.Some? ==>
      DeriveStatus(moves, ps).winner.value in ps && Wins(moves, DeriveStatus(moves, ps).winner.value)
  {
    NoWinnerIff(moves, ps);
    if LastWinner(moves, ps).Some? {
      var i := WinnerIsLastWinning(moves, ps);
    }
  }

  function DeriveGame(moves: seq<Move>, ps: seq<Player>): GameView
    requires |ps| >= 2
  {
    GameView(moves, CurrentPlayer(moves, ps), DeriveStatus(moves, ps))
  }

  /** Squares are on the board and no square is taken twice. */
  predicate WellFormed(moves: seq<Move>) {
    (forall i :: 0 <= i < |moves| ==> OnBoard(moves[i].squareId)) &&
    (forall i, j :: 0 <= i < j < |moves| ==> moves[i].squareId != moves[j].squareId)
  }

  /** The i-th move (from 0) was made by `ps[i % 2]`. */
  predicate Alternating(moves: seq<Move>, ps: seq<Player>)
    requires |ps| >= 2
  {
    forall i :: 0 <= i < |moves| ==> moves[i].player == ps[i % 2]
  }

  /** The set of squares taken by the moves of the log. */
  function TakenSquares(moves: seq<Move>): set<int>
  {
    if moves == [] then {} else TakenSquares(moves[..|moves| - 1]) + {moves[|moves| - 1].squareId}
  }

  /** Pairwise distinct squares make as many taken squares as moves. */
  lemma {:induction false} TakenSquaresCount(moves: seq<Move>)
    requires forall i, j :: 0 <= i < j < |moves| ==> moves[i].squareId != moves[j].squareId
    ensures |TakenSquares(moves)| == |moves|
  {
    if moves != [] {
      var n := |moves| - 1;
      var init := moves[..n];
      assert forall i :: 0 <= i < n ==> init[i] == moves[i];
      TakenSquaresCount(init);
      TakenSquaresMembers(init);
      assert forall i :: 0 <= i < n ==> init[i].squareId != moves[n].squareId;
    }
  }

  /** Squares on the board make taken squares among the nine. */
  lemma TakenSquaresOnBoard(moves: seq<Move>)
    requires forall i :: 0 <= i < |moves| ==> OnBoard(moves[i].squareId)
    ensures TakenSquares(moves) <= {1, 2, 3, 4, 5, 6, 7, 8, 9}
  {
  }

  lemma {:induction false} TakenSquaresMembers(moves: seq<Move>)
    ensures forall v :: v in TakenSquares(moves) ==> exists i :: 0 <= i < |moves| && moves[i].squareId == v
  {
    if moves != [] {
      var n := |moves| - 1;
      TakenSquaresMembers(moves[..n]);
      assert forall i :: 0 <= i < n ==> moves[..n][i] == moves[i];
    }
  }

  /** A well-formed log holds at most nine moves. */
  lemma WellFormedBound(moves: seq<Move>)
    requires WellFormed(moves)
    ensures |moves| <= 9
  {
    TakenSquaresCount(moves);
    TakenSquaresOnBoard(moves);
    SubsetCard(TakenSquares(moves), {1, 2, 3, 4, 5, 6, 7, 8, 9});
  }

  lemma SubsetCard(a: set<int>, b: set<int>)
    requires a <= b
    ensures |a| <= |b|
  {
    assert b == a + (b - a);
  }

  /**
   * Appending the current player's move on a free square keeps the log well formed
   * (hence within nine moves) and keeps the turn alternation.
   */
  lemma MoveKeepsInvariants(moves: seq<Move>, ps: seq<Player>, s: int)
    requires |ps| >= 2
    requires OnBoard(s) && !Occupied(moves, s)
    ensures WellFormed(moves) ==> WellFormed(moves + [Move(s, CurrentPlayer(moves, ps))])
    ensures WellFormed(moves) ==> |moves + [Move(s, CurrentPlayer(moves, ps))]| <= 9
    ensures Alternating(moves, ps) ==> Alternating(moves + [Move(s, CurrentPlayer(moves, ps))], ps)
  {
    var next := moves + [Move(s, CurrentPlayer(moves, ps))];
    assert forall i :: 0 <= i < |moves| ==> next[i] == moves[i];
    if WellFormed(moves) {
      assert WellFormed(next);
      WellFormedBound(next);
    }
  }

  /**
   * In a log that alternates between players `a` and `b` (starting with `a`) with
   * different ids, `a` has taken one square more than `b`, or as many.
   */
  lemma {:induction false} AlternationCounts(moves: seq<Move>, a: Player, b: Player)
    requires a.id != b.id
    requires forall i :: 0 <= i < |moves| ==> moves[i].player == (if i % 2 == 0 then a else b)
    ensures |SquaresOf(moves, a)| == (|moves| + 1) / 2
    ensures |SquaresOf(moves, b)| == |moves| / 2
  {
    if moves != [] {
      var rest := moves[1..];
      assert forall i :: 0 <= i < |rest| ==> rest[i] == moves[i + 1];
      AlternationCounts(rest, b, a);
    }
  }
}
