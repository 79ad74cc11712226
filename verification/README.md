# Tic-tac-toe state store, modelled in Dafny

This project models the game state engine of a browser tic-tac-toe game: the
`Store` class of `js/store.js`. The store owns one persisted document,
`{curGameMoves, history: {curRoundGames, allGames}}`, kept in storage under a
key. It has three kinds of members:

- derived read views, recomputed on every read: the `game` view gives the
  current player (parity of the move log), the winner and the completion
  status; the `stats` view gives wins per player and ties;
- mutators, each a read / copy / change / write cycle: `playerMove`, `reset`
  and `newRound`;
- persistence helpers: `#getState` falls back to an empty default document,
  and `#saveState` takes a new document (any object) or an updater function
  and refuses a value that is neither an object nor a function.

Layout:

- `types.dfy` (module `Types`): the document and its parts, the default
  document, and reading the storage slot.
- `engine.dfy` (module `Engine`): the winning patterns, the squares of a
  player, the winner, the completion rule, turn order, and the invariants of
  a move log.
- `scoreboard.dfy` (module `Scoreboard`): counting won and tied games, and
  the stats view.
- `store.dfy` (module `StateStore`): the `Store` class. The storage slot is
  the field `slot: Option<Document>` (`None` when storage holds nothing).
  The `statechange` event is the counter `notifications`, raised by one on
  every write. `Store.State` is the read helper. `Store.Stats` is the stats
  getter. `Store.Game` is the game getter; it keeps the source's nested loops
  over players and patterns and is proved equal to `Engine.DeriveGame`.
- `scenarios.dfy` (module `Scenarios`): concrete games with the two players
  the app creates (`js/app.js:5-19`). Client methods drive a `Store` through
  a won game, a reset and a new round (`PlayTopRow`, `TopRowThenReset`,
  `TopRowThenNewRound`), and through a tied game and a reset (`TieThenReset`).

The `playerMove` precondition says what the callers guarantee; the store itself
checks neither half. The square is one of the nine because the click handler is
bound to the nine square elements of the board (`js/view.js:42-45`). It is not
already in the move log because the app's guard drops a click on a taken square
(`js/app.js:49-55`).

The code needs only `players[length % 2]` to exist, so the model asks for at
least two players rather than exactly two.

## Model

| member | source | states |
|---|---|---|
| `Types.ReadSlot` | js/store.js:122-125 | With nothing stored, the read gives the default: an empty move log, no current-period games and no archived games. Otherwise it gives the stored document. |
| `Engine.PatternsAreTheLines` | js/store.js:48-57 | The eight winning triples are lines of the 3x3 board (same row, same column or a diagonal). Every line of the board is one of them. |
| `Engine.SquaresOfMembers` | js/store.js:63-65 | A square is among a player's squares exactly when some move of the log with that player's id took it. The list is no longer than the log. |
| `Engine.NoWinnerIff` | js/store.js:59-73 | The scan reports no winner exactly when no player of the list holds all three squares of some winning pattern. |
| `Engine.WinnerIsLastWinning` | js/store.js:59-73 | A reported winner is a player of the list who holds a line, and no player after it in the list holds one: later matches overwrite earlier ones. |
| `Engine.BothWinLaterReported` | js/store.js:62-73 | With two players both holding a line, the second one is reported. |
| `Engine.CurrentPlayer` | js/store.js:46 | The next player is the first one after an even number of moves and the second one after an odd number. |
| `Engine.CompletionRule` | js/store.js:75-81 | A game is complete exactly when some player holds a line or the log has 9 moves. A reported winner is one of the players and holds a line. |
| `Engine.EmptyGameInProgress` | js/store.js:59-81 | An empty move log has no winner and is not complete. |
| `Engine.MoveKeepsInvariants` | js/store.js:87-94 | Appending the current player's move on a free square keeps the log well formed (squares on the board, none twice) and within 9 moves. It also keeps move i made by player i mod 2. |
| `Engine.SquaresOfConcat` | js/store.js:63-65 | The squares of a player in two runs of moves are the squares in the first run followed by those in the second. |
| `Engine.TakenSquaresCount` | js/app.js:49-55 | A log whose squares are pairwise distinct takes as many distinct squares as it has moves. |
| `Engine.TakenSquaresOnBoard` | js/view.js:42-45 | A log whose squares are all on the board takes only squares 1 to 9. |
| `Engine.WellFormedBound` | js/app.js:49-55 | A log whose squares are on the board and pairwise distinct has at most 9 moves. |
| `Engine.AlternationCounts` | js/store.js:46 | In a log that alternates between two players with different ids, the first player has (n+1)/2 squares and the second n/2. |
| `Scoreboard.CountIsMatchingSize` | js/store.js:26-38 | The filter-and-length count equals the number of positions in the period whose game matches (won by an id, or tied). |
| `Scoreboard.CountConcat` | js/store.js:115-116 | Counts over two runs of games add up. So games moved to the archive keep their tallies there. |
| `Scoreboard.RoundPartition` | js/store.js:20-40 | When every game is won by one of two players with different ids or tied, the two win counts plus the tie count equal the number of games. |
| `Scoreboard.StatsOf` | js/store.js:20-40 | One entry per player, in list order. Each entry holds the number of current-period games whose winner has that player's id. Ties is the number of current-period games without a winner. |
| `Scoreboard.StatsIgnoreArchive` | js/store.js:20-40 | Two documents with the same current-period games have the same stats, whatever their archives hold. |
| `StateStore.Archived` | js/store.js:99-104 | A reset archives one record, the game's moves and status, exactly when the game is complete. Otherwise it archives nothing. |
| `StateStore.ArchivedSound` | js/store.js:101-104 | Archiving keeps every archived game complete. It also keeps every archived winner one of the players. |
| `StateStore.ScoreboardAddsUp` | js/store.js:20-40 | For two players with different ids and a sound period, wins plus ties equal the number of games in the period. |
| `StateStore.Store.constructor` | js/store.js:13-17 | The store keeps its key and players and does not write to storage. |
| `StateStore.Store.Game` | js/store.js:43-83 | The nested scan over players and patterns returns the stored move log, the current player by parity, and the status derived from the last winning player. |
| `StateStore.Store.PlayerMove` | js/store.js:87-94 | The log grows by exactly one move, made by the player whose turn it was before the append. History is unchanged and one notification is sent. Well-formedness, the 9-move bound and turn alternation are kept. |
| `StateStore.Store.Reset` | js/store.js:97-108 | The move log is emptied and the archive is unchanged. An incomplete game leaves the current period as it was. A complete game appends exactly one record (its moves and status) to the period. The matching win or tie count goes up by one. One notification is sent. |
| `StateStore.Store.NewRound` | js/store.js:111-119 | The move log and the current period are emptied. The archive becomes the old archive, then the old period, then the just-finished game if it was complete, in that order. All stats are zero afterwards. Two notifications are sent. |
| `StateStore.Store.SaveState` | js/store.js:128-144 | A new document is stored as given and then read back unchanged. An updater's result on the stored document is stored. Either way one notification is sent. An argument that is neither an object nor a function (a string, a number, a boolean or undefined) gives the "Invalid argument passed" error, writes nothing and sends no notification. |
| `Scenarios.OneMoveScenario` | js/store.js:43-83 | After player 1's first move on square 1, player 2 is to move, there is no winner and the game is in progress. |
| `Scenarios.TopRowScenario` | js/store.js:43-83 | Moves 1, 4, 2, 5, 3: player 1 holds the top row and has won, the game is complete, and player 2 would move next. |
| `Scenarios.TopRowStats` | js/store.js:20-40 | With only the top-row game in the period, player 1 has one win, player 2 none, and there are no ties. |
| `Scenarios.TieScenario` | js/store.js:75-81 | A full board on which neither player holds a line is complete with no winner. |

## Left out

- Browser storage, JSON encoding and decoding, and `structuredClone`: storage is the `slot` field. Copies are values. A round trip through JSON is not modelled.
- The `statechange` event and cross-tab updates through the `storage` event: the event is the `notifications` counter. Writes by other tabs are not modelled; the slot changes only through the store's own writes.
- Store.SaveState: the source also stores, without error and with a notification, any object that is not a document (an array, `{}`, a wrongly shaped record). `SaveArg` cannot express such values, and no public operation passes one.
- Saving `null`, which the source's `typeof` test takes for an object: `SaveArg` has no null case. The public operations never pass one.
- The rendering and event wiring of `js/view.js` and `js/app.js`. Of these, only the app's duplicate-square guard is kept, as the precondition of `Store.PlayerMove`.
- Keeping finished games in only one of the period and the archive: games are values, so two identical games cannot be told apart. The model instead states that games move to the archive in order.
- `Store.Reset` reads the game view once. The source reads it twice; the stored document does not change between the two reads, so both give the same view.
