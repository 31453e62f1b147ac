# Wagered game sessions, modelled in Dafny

This project models the core of a server for wagered two-player games. Two
players stake a balance of a crypto asset (USDT, ETH or POLYGON) on a game
of chess or tic-tac-toe. They meet in a room, found directly, through an
invite code, or through a matchmaking queue. When the game ends, the pot is
paid to the winner less a platform fee, and part of the fee goes to the
players' referrers.

The model covers five parts:

- **Wallet ledger and settlement** (`wallet.dfy`). These are deposits,
  withdrawals, locking a stake for a game, releasing it, and settling a
  finished game (`settleWinnerTakeAll`).
  - Each operation is a pure `...Effect` function over `Books`: the balance
    rows, the ledger and the referral records.
  - Each is also a method on the `Store` class, proved to write exactly what
    its function says.
  - The rows are modelled in `db.dfy`.
- **Matchmaking queue** (`queue.dfy`). This is the class `MatchmakingQueue`. It
  holds a map from queue key to its FIFO list, plus the map's iteration
  order, which `removeUser` walks.
- **Room lifecycle**:
  - `matchmaking.dfy` covers `createRoom`, `joinRoom` and `joinRoomByInvite`
    (WAITING to ACTIVE).
  - `games.dfy` covers `startGame`, `applyMove`, `resign` and `cancelRoom`
    (ACTIVE to ENDED or CANCELLED).
  - Each operation is an `...Effect` function over the tables, plus a method
    on the store proved against it.
  - The writes are separate steps, as in the code. A failure part-way leaves
    the earlier writes in place.
- **Game engines**:
  - `tictactoe.dfy` holds the tic-tac-toe rules.
  - `chess.dfy` holds the chess wrapper: colours, UCI parsing, the guard
    order and the classification of a finished game. chess.js is a
    parameter, `ChessJs`.
  - `registry.dfy` dispatches on the game type.
  - `game_types.dfy` holds the shared state and result shapes.
- **FEN board reading** (`chess_board.dfy`). These are the client's `fenBoard`
  and `idxToSquare`. `fenBoard` expands the piece-placement field of
  Forsyth–Edwards Notation (section 16.1.3.1 of the PGN Standard) to 64
  squares, a8 first.

`common.dfy` holds the shared vocabulary and the JavaScript string operations
the code relies on: `trim`, `toUpperCase` and `split`. `indexOf` and `join`
are the model's own helpers: `split` cuts at the first `indexOf` of the
separator, and `join` states the round trip that `split` completes.

Amounts are Dafny `real`. The code works on decimal.js values, and every
division in it is by 2 or by 10 000, so the results are exact, up to
decimal.js's precision, which is left out.

## Separate writes

`startGame`, `applyMove`/`resign` and `cancelRoom` each run several
transactions, and a failed step leaves the earlier writes in place:

- `startGame` writes the game state, then runs two separate `lockForGame`
  transactions.
- `applyMove` and `resign` write the ended room before `settleWinnerTakeAll`
  runs.
- `cancelRoom` writes CANCELLED before the two unlocks.

The model runs each write as its own step. What this means for `startGame`
and `cancelRoom` is under "## Findings".

## Model

| member | source | states |
|---|---|---|
| Wallet.AssertPositive | apps/server/src/modules/wallet/service.ts:11-13 | passes exactly for a positive amount, otherwise fails with "Amount must be positive" |
| Wallet.WalletAsset | apps/server/src/modules/wallet/service.ts:15-23 | the user's row of the asset when the wallet and the row exist; "Wallet missing" or "Wallet asset missing" otherwise |
| Wallet.DepositEffect | apps/server/src/modules/wallet/service.ts:38-51 | succeeds exactly for a positive amount on an existing row; credits exactly the amount to available and nothing else; appends one COMPLETED DEPOSIT; keeps balances non-negative; each error case with its message |
| Wallet.Deposit | apps/server/src/modules/wallet/service.ts:38-51 | the store ends as DepositEffect says, or unchanged with its error; the store invariant is kept |
| Wallet.WithdrawEffect | apps/server/src/modules/wallet/service.ts:53-67 | succeeds exactly when the amount is positive and no larger than available; debits exactly the amount; appends one PENDING WITHDRAW; "Insufficient balance" otherwise; balances stay non-negative |
| Wallet.Withdraw | apps/server/src/modules/wallet/service.ts:53-67 | the store ends as WithdrawEffect says, or unchanged with its error |
| Wallet.LockEffect | apps/server/src/modules/wallet/service.ts:69-83 | succeeds exactly when the amount is positive and no larger than available; moves the amount from available to locked, keeping their sum; one COMPLETED LOCK naming the game; every error case |
| Wallet.LockForGame | apps/server/src/modules/wallet/service.ts:69-83 | the store ends as LockEffect says, or unchanged with its error |
| Wallet.UnlockEffect | apps/server/src/modules/wallet/service.ts:85-98 | no change at all for an amount that is not positive; otherwise succeeds exactly when locked covers the amount; moves the amount back to available, keeping their sum; one UNLOCK; "Locked balance underflow" otherwise |
| Wallet.UnlockFromGame | apps/server/src/modules/wallet/service.ts:85-98 | the store ends as UnlockEffect says, or unchanged with its error |
| Wallet.UnlockAfterLock | apps/server/src/modules/wallet/service.ts:69-98 | an unlock of a stake just locked succeeds and restores the wallets exactly, leaving the LOCK and UNLOCK entries in the ledger |
| Wallet.FeeBounds | apps/server/src/modules/wallet/service.ts:114-118 | for fee settings in 0..10000: 0 ≤ fee ≤ pot, 0 ≤ payout ≤ pot, fee + payout = pot, and the two referral shares together come out of the fee |
| Wallet.DefaultSettlementExample | apps/server/src/config.ts:11-12 | with the default 500 and 1000 basis points, a stake of 10 pays 19, keeps a fee of 1, and each referral share is 0.05 |
| Wallet.Earners | apps/server/src/modules/wallet/service.ts:173-185 | the rewards of the referral loop: no more rewards than participants, none for a share that is not positive, each paid to the referrer of the user it names, who holds a row of the asset |
| Wallet.EarnersOfPair | apps/server/src/modules/wallet/service.ts:173-185 | for the two players: p1's referrer first, then p2's, each only when the share is positive and the referrer holds the asset |
| Wallet.RewardTotalIsShareTimesCount | apps/server/src/modules/wallet/service.ts:206-212 | the accumulated referral total is one share per reward, and a positive share gives a positive total exactly when some reward was paid |
| Wallet.CreditAllRow | apps/server/src/modules/wallet/service.ts:186 | a referrer's available balance rises by one share per reward it earns; locked balances and other assets do not change |
| Wallet.SettleEffect | apps/server/src/modules/wallet/service.ts:106-215 | the error cases in order: not-positive stake, missing rows, "Locked stake missing"; success exactly when both stakes are locked; the set of wallet rows is unchanged |
| Wallet.SettleDraw | apps/server/src/modules/wallet/service.ts:125-142 | a draw moves each player's stake from locked to available, leaves every other row alone, logs two UNLOCK entries with the draw reason, and reports payout = stake, fee 0 |
| Wallet.SettleDecisiveWallets | apps/server/src/modules/wallet/service.ts:150-186 | a decided game takes the stake from both locked balances, pays the winner's row the pot less the fee, credits each referrer its share, and changes no other balance |
| Wallet.SettleDecisiveReport | apps/server/src/modules/wallet/service.ts:160-213 | a decided game logs PAYOUT then FEE against the winner, then one REFERRAL_REWARD and one reward record per earner (at most two); the reported referral total is their sum, or absent |
| Wallet.SettleDrawIs | apps/server/src/modules/wallet/service.ts:125-142 | with a positive stake locked in both rows, a draw succeeds: both stakes go back to available, two UNLOCK entries, payout = stake, fee 0 |
| Wallet.SettleDecisiveIs | apps/server/src/modules/wallet/service.ts:144-213 | with the stake locked in the winner's and the loser's rows, a decided game succeeds with the fee, payout and share the settings give |
| Wallet.DecidedRow | apps/server/src/modules/wallet/service.ts:150-186 | each row after a decided game: the payout to the winner's row, each referrer's shares to its available balance, the stake off both players' locked balances |
| Wallet.ReleaseBoth | apps/server/src/modules/wallet/service.ts:126-141 | the draw's writes: both rows unlocked by the stake, and the two UNLOCK entries in player order |
| Wallet.PayWinner | apps/server/src/modules/wallet/service.ts:150-165 | the decided game's writes before the referral loop: both stakes consumed, the payout credited, PAYOUT and FEE logged |
| Wallet.SettleDecided | apps/server/src/modules/wallet/service.ts:150-213 | the writes of a decided game are the decided settlement |
| Wallet.SettleNonNegative | apps/server/src/modules/wallet/service.ts:125-157 | no settlement, draw or decided, makes any balance negative |
| Wallet.SettleWinnerTakeAll | apps/server/src/modules/wallet/service.ts:106-215 | the store ends as SettleEffect says and the report is its settlement, or the store is unchanged with its error |
| Wallet.Referrals | apps/server/src/modules/wallet/service.ts:169-207 | the referral loop credits, logs and records exactly the rewards of Earners and returns their total |
| Wallet.PayReferral | apps/server/src/modules/wallet/service.ts:175-206 | one pass pays exactly when the share is positive and the participant's referrer holds the asset; otherwise nothing changes |
| Wallet.DecideByParts | apps/server/src/modules/wallet/service.ts:153-213 | consuming the stakes and paying the winner, then paying the rewards, is the decided settlement, with the referral total absent when it is 0 |
| Queue.ParseQueueKey | apps/server/src/modules/matchmaking/queue.ts:6-8 | a key reads back as the game type, the asset and the amount it was made of, whatever the amount holds |
| Queue.QueueKeyInjective | apps/server/src/modules/matchmaking/queue.ts:6-8 | two entries share a key only when game type, asset and amount all agree |
| Queue.FirstOther | apps/server/src/modules/matchmaking/queue.ts:24 | the first index whose entry belongs to someone else, or -1 when every entry is the requester's |
| Queue.Partition | apps/server/src/modules/matchmaking/queue.ts:36-39 | every entry is either the user's or kept, and nothing is lost |
| Queue.OthersAppend | apps/server/src/modules/matchmaking/queue.ts:36-39 | the kept entries keep their relative order |
| Queue.CollectExactly | apps/server/src/modules/matchmaking/queue.ts:32-44 | an entry is returned by removeUser exactly when it is the user's and waits under some key |
| Queue.MatchingExactly | apps/server/src/modules/matchmaking/queue.ts:36-39 | an entry is taken from a list exactly when it is in the list and is the user's |
| Queue.KeptKeys | apps/server/src/modules/matchmaking/queue.ts:40-41 | a key stays exactly when its list keeps an entry of someone else, and the kept keys stay distinct |
| Queue.PurgedKept | apps/server/src/modules/matchmaking/queue.ts:40-41 | after removeUser no list is empty, no entry of the user is left, and the order still lists every key exactly once |
| Queue.MatchmakingQueue.constructor | apps/server/src/modules/matchmaking/queue.ts:13 | an empty queue, which satisfies the queue invariant |
| Queue.MatchmakingQueue.Enqueue | apps/server/src/modules/matchmaking/queue.ts:15-19 | the entry is appended to its key's list; no other list changes; a new key comes last in the order; the invariant is kept |
| Queue.MatchmakingQueue.DequeueOther | apps/server/src/modules/matchmaking/queue.ts:21-30 | returns an entry exactly when the key holds one of someone else; that entry is the earliest such one and exactly it is removed; the emptied key is deleted; otherwise nothing changes |
| Queue.MatchmakingQueue.Sift | apps/server/src/modules/matchmaking/queue.ts:35-39 | the inner loop splits a list into the user's entries and the others', each in order |
| Queue.MatchmakingQueue.PurgeKey | apps/server/src/modules/matchmaking/queue.ts:35-41 | one key: returns its user entries, and either deletes the key or replaces its list with the others' |
| Queue.MatchmakingQueue.RemoveUser | apps/server/src/modules/matchmaking/queue.ts:32-44 | returns the user's entries key by key in iteration order; the queue becomes the purged queue, the order loses the emptied keys, and the invariant is kept |
| Matchmaking.CreateEffect | apps/server/src/modules/matchmaking/service.ts:10-33 | "Invalid stake" for a stake that is not positive; a clash of invite codes is the unique-constraint error; otherwise a WAITING, well-formed room owned by the creator, with no second player, winner or game state, and with an invite code exactly when private |
| Matchmaking.CreateRoom | apps/server/src/modules/matchmaking/service.ts:10-33 | inserts exactly the row of CreateEffect and returns its id and invite code, or writes nothing with its error |
| Matchmaking.JoinEffect | apps/server/src/modules/matchmaking/service.ts:35-47 | the guard chain in order: "Room not found", "Room not joinable", the owner gets the room unchanged, "Room is full"; otherwise the caller becomes player2 and the room turns ACTIVE, nothing else changing |
| Matchmaking.JoinRoom | apps/server/src/modules/matchmaking/service.ts:35-47 | returns JoinEffect and writes exactly its row on success |
| Matchmaking.JoinOnce | apps/server/src/modules/matchmaking/service.ts:39-45 | after a second player joined, every further join, by anyone, is "Room not joinable" |
| Matchmaking.OwnerJoinChangesNothing | apps/server/src/modules/matchmaking/service.ts:40 | the owner joining its own waiting room gets it back and no row changes |
| Matchmaking.NormalizeIdempotent | apps/server/src/modules/matchmaking/service.ts:50 | trimming and upper-casing a normalised code changes nothing |
| Matchmaking.JoinByInviteEffect | apps/server/src/modules/matchmaking/service.ts:49-55 | "Missing invite code" for a code that normalises to empty; "Invite not found" for a code no room holds |
| Matchmaking.ByInviteIsJoin | apps/server/src/modules/matchmaking/service.ts:52-54 | with a code some room holds, joining by invite is joinRoom on that room |
| Matchmaking.JoinRoomByInvite | apps/server/src/modules/matchmaking/service.ts:49-55 | returns JoinByInviteEffect and writes exactly the joined row on success |
| Matchmaking.CreateThenJoinByInvite | apps/server/src/modules/matchmaking/service.ts:20-55 | a private room's code, entered in any case and with any padding, makes anyone else its second player and gives the creator the room back |
| Games.SideFor | apps/server/src/modules/games/service.ts:7-11 | p1 exactly for the owner, p2 exactly for the second player who is not the owner, "Not in room" otherwise |
| Games.WinnerIdFor | apps/server/src/modules/games/service.ts:13-17 | a player of the room for p1, and for p2 when there is a second player; "Missing player2" otherwise |
| Games.SideForWinnerIdFor | apps/server/src/modules/games/service.ts:7-17 | the two lookups invert each other |
| Games.StartGame | apps/server/src/modules/games/service.ts:19-41 | the store ends as the separate writes of startGame leave it, and the room invariants are kept |
| Games.StartGameLocksBoth | apps/server/src/modules/games/service.ts:29-38 | a first start stores the engine's first state, keeps the room ACTIVE, moves each player's stake from available to locked, and logs the two LOCK entries in player order |
| Games.StartGameTwice | apps/server/src/modules/games/service.ts:24 | once a start succeeded, a second one returns the same room and writes nothing, so no stake is locked twice |
| Games.EndWinner | apps/server/src/modules/games/service.ts:68 | no winner for a draw; otherwise the player of the winning side, or WinnerIdFor's error |
| Games.Close | apps/server/src/modules/games/service.ts:69-119 | writes the ended room, then settles with its winner; the room is logged as settled exactly when the settlement succeeds |
| Games.ApplyMove | apps/server/src/modules/games/service.ts:43-95 | the store ends as the guards, the engine and the separate writes of applyMove leave it; the room is logged as settled exactly for a finished game |
| Games.Play | apps/server/src/modules/games/service.ts:59-94 | an accepted move is recorded, then either its state is stored or the game is closed and settled |
| Games.MoveRefusedWritesNothing | apps/server/src/modules/games/service.ts:56-57 | a move the engine refuses fails with the engine's message and writes nothing |
| Games.MoveContinues | apps/server/src/modules/games/service.ts:59-94 | a move that does not end the game appends one move record, replaces the state, keeps the room ACTIVE and touches no balance |
| Games.MoveEnds | apps/server/src/modules/games/service.ts:59-88 | a move that ends the game appends one move record, ends the room with the player of the winning side (none for a draw), stores the final state, and settles with that winner |
| Games.Resign | apps/server/src/modules/games/service.ts:97-122 | the store ends as resign's guards and writes leave it; the room is logged as settled exactly on success |
| Games.ResignOtherWins | apps/server/src/modules/games/service.ts:103-121 | the resigner is a player and loses, the other player wins, the room ends, and the reason is "resign" unless another was given |
| Games.CancelRoom | apps/server/src/modules/games/service.ts:124-142 | the store ends as cancelRoom leaves it, and the invariants are kept |
| Games.CancelRefunds | apps/server/src/modules/games/service.ts:129-139 | cancelling an ACTIVE room returns each player's stake from locked to available, leaves every other wallet row as it was and adds just the two UNLOCK entries to the ledger; a WAITING room is cancelled without touching any balance |
| Games.CancelUnlocksNeverLocked | apps/server/src/modules/games/service.ts:134-139 | as written: after the failed start, the room's stakes are not in the ledger, yet cancelRoom unlocks them; it writes CANCELLED and then fails with "Locked balance underflow" |
| Games.CancelReleasesOtherStake | apps/server/src/modules/games/service.ts:134-139 | as written: cancelling a never-started ACTIVE room whose players also hold a locked running game succeeds by releasing that game's stakes, so settling the game then fails with "Locked stake missing" |
| Games.CancelReleasesOtherStakeExample | apps/server/src/modules/games/service.ts:134-139 | the same on concrete tables: rooms "g" (running, both stakes locked) and "r" (never started) |
| Games.CancelRoomGuarded | apps/server/src/modules/games/service.ts:124-142 | corrected: the store ends as the guarded cancel leaves it, and the invariants are kept |
| Games.CancelGuardedSkipsUnlocked | apps/server/src/modules/games/service.ts:134-139 | corrected: a room none of whose stakes the ledger shows locked is cancelled successfully and no balance changes |
| Games.CancelGuardedRefunds | apps/server/src/modules/games/service.ts:134-139 | corrected: a successful cancel of an ACTIVE room moves a player's stake from locked to available exactly when the ledger shows it locked for this room, while every other wallet row stays as it was, and the ledger gains one UNLOCK per refunded stake |
| Games.CancelGuardedOnFailedStart | apps/server/src/modules/games/service.ts:134-139 | corrected: on the failed start's tables the cancel succeeds and every balance is as before |
| Games.RefundKeepsLocks | apps/server/src/modules/games/service.ts:136-138 | one player's refund leaves every LOCK entry of the ledger in place, so the second player's check sees the same ledger |
| Games.ClosedRoomIsFinal | apps/server/src/modules/games/service.ts:21-127 | an ended or cancelled room refuses start, move and resignation as not active and writes nothing, and is not cancelled again |
| Games.FinishedGameSettlesOnce | apps/server/src/modules/games/service.ts:46-100 | after a move finished the game, no later move or resignation settles the room again |
| Games.StartGameRetryRunsUnlocked | apps/server/src/modules/games/service.ts:24-38 | as written: a failed first lock leaves the state stored, and the retry reports the game started with no stake locked |
| Games.StartGameFailedStillPlays | apps/server/src/modules/games/service.ts:29-64 | as written: after the failed first lock, `applyMove` accepts a move on the stored state, and the game goes on with no stake locked and every balance as before |
| Games.StartGameSecondLockFails | apps/server/src/modules/games/service.ts:29-38 | as written: when only the second lock fails, the start reports "Insufficient balance", yet the state stays stored, the first player's stake stays locked and its LOCK is logged; the second player's row is untouched |
| Games.StartGameAtomic | apps/server/src/modules/games/service.ts:19-41 | corrected start on the store: both locks are checked before the first write |
| Games.StartGameAtomicKeepsLocked | apps/server/src/modules/games/service.ts:29-38 | corrected start: every running game keeps both stakes locked, and a failed start changes nothing |
| Games.StartGameAtomicRetryLocks | apps/server/src/modules/games/service.ts:29-38 | on the counterexample's tables the corrected start fails and writes nothing |
| TicTacToeEngine.MarkForSide | packages/games/src/tictactoe/engine.ts:12-14 | X exactly for p1, never empty |
| TicTacToeEngine.SideOfMarkInverts | packages/games/src/tictactoe/engine.ts:12-72 | the side read back from a side's mark is that side |
| TicTacToeEngine.Winner | packages/games/src/tictactoe/engine.ts:20-37 | a mark exactly when one of the eight lines holds three of it, empty when none does |
| TicTacToeEngine.WinnerScan | packages/games/src/tictactoe/engine.ts:31-37 | the loop with early return computes Winner |
| TicTacToeEngine.Create | packages/games/src/tictactoe/engine.ts:41-47 | nine empty cells, status active, p1 to move |
| TicTacToeEngine.ApplyMove | packages/games/src/tictactoe/engine.ts:48-76 | the rejections in order with their messages; accepted exactly for a legal move; the mover's mark is written into exactly the chosen cell |
| TicTacToeEngine.MoveOutcome | packages/games/src/tictactoe/engine.ts:62-75 | a complete line wins for the side of its mark, a full board without one is a draw, otherwise the game runs on with the other side to move; a finished game keeps nextTurn |
| TicTacToeEngine.ExampleRowWin | packages/games/src/tictactoe/engine.ts:62-72 | X X _ / O O _ / _ _ _ with p1 on cell 2 ends in a win for p1 |
| TicTacToeEngine.CreateConsistent | packages/games/src/tictactoe/engine.ts:41-47 | the first state is a reachable one |
| TicTacToeEngine.ApplyKeepsConsistent | packages/games/src/tictactoe/engine.ts:58-69 | accepted moves keep a reachable game reachable: the marks alternate from X, and a running game has no line and a free cell |
| TicTacToeEngine.WinIsMover | packages/games/src/tictactoe/engine.ts:62-72 | in a reachable game only the mover can win |
| ChessEngine.TurnMappingsInverse | packages/games/src/chess/engine.ts:24-30 | sideToTurn and nextTurnToSide are inverse bijections, p1 to white and p2 to black |
| ChessEngine.ParseUci | packages/games/src/chess/engine.ts:32-39 | "Invalid UCI" exactly when the trimmed text is shorter than 4; otherwise from is chars 0-1 and to is chars 2-3; a promotion exactly when there is a fifth char, which it is, unchecked |
| ChessEngine.ParseUciRoundTrip | packages/games/src/chess/engine.ts:32-39 | the UCI text of a move parses back to the move |
| ChessEngine.ParseUciIgnoresTail | packages/games/src/chess/engine.ts:37 | whatever follows the fifth character is ignored |
| ChessEngine.Requested | packages/games/src/chess/engine.ts:65-82 | a string `uci` is parsed, and a parse failure requests nothing; otherwise string `from` and `to` are passed as they are, with `promotion` |
| ChessEngine.Classify | packages/games/src/chess/engine.ts:95-106 | a winner exactly for checkmate, and then it is the mover; otherwise stalemate, insufficient material, threefold repetition and draw, in that order, and draw by default |
| ChessEngine.Create | packages/games/src/chess/engine.ts:43-50 | active, p1 to move, chess.js's starting position |
| ChessEngine.ApplyMove | packages/games/src/chess/engine.ts:51-107 | the rejections in order: not active, not your turn, invalid move, illegal move; accepted exactly for a legal move; a running result has the side of the colour to move; a finished one keeps nextTurn and carries its classification |
| ChessEngine.OnlyCheckmateWins | packages/games/src/chess/engine.ts:95-98 | only a checkmate names a winner, and it is the side that moved |
| ChessEngine.RunningGameTurn | packages/games/src/chess/engine.ts:86-92 | a running game after a move has the side whose colour is to move next |
| Registry.Create | apps/server/src/modules/games/registry.ts:4-7 | the first state of the room's engine, of its game type and active |
| Registry.Apply | apps/server/src/modules/games/registry.ts:4-7 | the room's engine's answer; a move ends the game exactly when an end is reported, and never returns a game to waiting |
| ChessBoard.Cells | apps/web/src/components/games/ChessBoard.tsx:38 | always 64 squares; the expansion when it has 64, an empty board otherwise |
| ChessBoard.ExpandChar | apps/web/src/components/games/ChessBoard.tsx:30-35 | a digit n is n empty squares; any other character is one square holding it |
| ChessBoard.FenBoard | apps/web/src/components/games/ChessBoard.tsx:24-39 | the nested loops compute Cells |
| ChessBoard.PushRows | apps/web/src/components/games/ChessBoard.tsx:28-37 | the outer loop pushes the expansion of every rank in order |
| ChessBoard.PushRow | apps/web/src/components/games/ChessBoard.tsx:29-36 | the middle loop pushes the expansion of every character of a rank |
| ChessBoard.PushEmpties | apps/web/src/components/games/ChessBoard.tsx:32 | the inner loop pushes n empty squares |
| ChessBoard.RanksDoNotMatter | apps/web/src/components/games/ChessBoard.tsx:26-37 | expanding the ranks one by one is expanding the placement with its slashes dropped |
| ChessBoard.PlacementIgnoresRest | apps/web/src/components/games/ChessBoard.tsx:25 | only the text before the first space is read |
| ChessBoard.SquareRoundTrip | apps/web/src/components/games/ChessBoard.tsx:41-45 | every index 0..63 has a two-character name that reads back to it |
| ChessBoard.IdxToSquareInjective | apps/web/src/components/games/ChessBoard.tsx:41-45 | no two squares share a name |
| ChessBoard.CornerSquares | apps/web/src/components/games/ChessBoard.tsx:41-45 | index 0 is a8 and index 63 is h1 |
| JsString.Trim | apps/server/src/modules/matchmaking/service.ts:50 | the longest infix with only white space around it, starting and ending with non-space |
| JsString.ToUpperIdempotent | apps/server/src/modules/matchmaking/service.ts:50 | upper-casing twice is upper-casing once |
| JsString.IndexOf | apps/web/src/components/games/ChessBoard.tsx:25-26 | the first position of the separator that `split` cuts at, or -1 exactly when it is absent |
| JsString.SplitJoin | apps/web/src/components/games/ChessBoard.tsx:25-26 | joining the pieces of a split gives the string back |
| Db.AddRoomValid | apps/server/src/modules/matchmaking/service.ts:21-31 | inserting a well-formed new room whose invite code no room holds keeps the room tables valid |
| Db.ReplaceRoomValid | apps/server/src/modules/games/service.ts:31-132 | rewriting a room in place, with the same invite code and staying ended once ended, keeps the room tables valid |

## Left out

- Decimal arithmetic. Amounts are exact reals. decimal.js's 20-digit precision, and parsing amount strings with `new Prisma.Decimal`, are not modelled; amounts arrive as numbers.
- Concurrency. Each Prisma `$transaction` is one sequential method. Row locking and interleavings of concurrent socket events are not modelled.
- Database-generated ids. A room's id is a parameter that must not be in use (`requires id !in db.rooms`).
- `inviteCode()`, which uses `Math.random`. The drawn code is a parameter.
- The unique constraint on `inviteCode`. It lives in the database schema, which is not part of this model. A clash is modelled as the error `Matchmaking.UniqueViolation`, with the message as a constant.
- JsString.UpperChar: upper-cases the ASCII letters only. The Unicode case mapping of `toUpperCase` is not modelled.
- The "Unsupported game" guards (apps/server/src/modules/games/service.ts:26-27, 50-51). They cannot fail: the engine registry covers both game types.
- chess.js. Legality, the position after a move, the game-over predicates, the colour to move, FEN and PGN are all the parameter `ChessJs`. The `snapshotFrom` fields come from it too.
- A chess move object's fields. Only a string `uci`, or string `from`/`to` with any `promotion`, request a move. Reading an own property as against an inherited one (the `in` test) is not modelled.
- JavaScript numbers. A tic-tac-toe `index` is a `real`, and `Number.isInteger` is the test that it has no fractional part. NaN and infinities are not modelled.
- Queue.MatchmakingQueue: the iteration order of the JavaScript `Map` is the field `order` (first-set order). Entries are plain values, so `splice` on a shared array is not modelled as aliasing.
- `socket.ts`: event plumbing, the join-random flow and disconnect handling.
- Authentication, the Express routers, the crypto adapters and the web UI. These are HTTP and socket I/O, HMAC/JWT libraries and React rendering.
- `getBalances` and `d()`: a read-only query and a conversion.
- ChessEngine.ParseUci: strings are sequences of code points. The UTF-16 `length` and `slice` of `parseUci` (packages/games/src/chess/engine.ts:33-38) are not modelled, so text with characters outside the Basic Multilingual Plane parses differently. `fenBoard`'s `for…of` walks code points, as the model does.
- Games.CancelGuardedEffect: not proved never to fail. That needs a ledger-wide invariant tying each locked balance to the open LOCK entries, which is not modelled.
- Wallet.ValidConfig: the fee and referral basis points are limited to 0..10000 by a precondition. The zod parsing of the environment is not modelled.

## Findings

| source | as written | input that shows it | evidently intended | confidence | as-written member | corrected member |
|---|---|---|---|---|---|---|
| apps/server/src/modules/games/service.ts:29-38 | `startGame` stores the engine's first state, then locks each player's stake in its own transaction. When a lock fails, the stored state stays. `applyMove` asks only for the stored state, so the game is played with no stake locked (a later `startGame` would also return "already started" and lock nothing). | Room "r", tic-tac-toe, 1.0 USDT, ACTIVE, players "a" (0.0 available) and "b" (5.0 available). The first start fails with "Insufficient balance" but the state is stored. "a" then takes cell 0 through `applyMove`, and the game goes on with no stake locked. | Both stakes are locked before anything is written. Either the game starts with both stakes locked, or nothing changes, so a retry tries the locks again. | not executed | Games.StartGameFailedStillPlays | Games.StartGameAtomicKeepsLocked |
| apps/server/src/modules/games/service.ts:134-139 | `cancelRoom` unlocks both stakes of any ACTIVE room with a second player, whether or not they were locked for it. | The tables the failed start above leaves: room "r" is ACTIVE and neither stake is locked. `cancelRoom` writes CANCELLED, then fails with "Locked balance underflow". When the players instead hold another game's locked stakes, the unlock succeeds and releases them (`Games.CancelReleasesOtherStake`). | Only stakes this room locked are refunded ("refund if it was already locked", line 134). | not executed | Games.CancelUnlocksNeverLocked | Games.CancelGuardedRefunds |
