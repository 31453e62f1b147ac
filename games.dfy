/** Starting, playing, resigning and cancelling games: the second half of the
    room lifecycle, ACTIVE until a game ends (ENDED) or the room is abandoned
    (CANCELLED). Each operation is a guard chain followed by separate writes:
    a failure part-way leaves the earlier writes in place. */
module Games {
  import opened Common
  import GameTypes
  import opened Db
  import Registry
  import ChessEngine
  import TicTacToeEngine
  import Wallet

  /** `sideFor`: the owner plays p1, the second player p2, anybody else is refused. */
  function SideFor(room: Room, u: UserId): (r: Result<GameTypes.Side>)
    ensures r == Ok(GameTypes.P1) <==> room.player1 == u
    ensures r == Ok(GameTypes.P2) <==> room.player1 != u && room.player2 == Some(u)
    ensures r.Err? ==> r.error == "Not in room"
  {
    if room.player1 == u then Ok(GameTypes.P1)
    else if room.player2 == Some(u) then Ok(GameTypes.P2)
    else Err("Not in room")
  }

  /** `winnerIdFor`: the player of a side, when the room has one. */
  function WinnerIdFor(room: Room, side: GameTypes.Side): (r: Result<UserId>)
    ensures r.Ok? <==> side == GameTypes.P1 || room.player2.Some?
    ensures r.Ok? ==> r.value == room.player1 || room.player2 == Some(r.value)
    ensures r.Err? ==> r.error == "Missing player2"
  {
    if side == GameTypes.P1 then Ok(room.player1)
    else if room.player2.None? then Err("Missing player2")
    else Ok(room.player2.value)
  }

  /** The two lookups invert each other: a player's side names that player,
      and in a room of two distinct players each side's player plays that side. */
  lemma SideForWinnerIdFor(room: Room, u: UserId, side: GameTypes.Side)
    ensures SideFor(room, u).Ok? ==> WinnerIdFor(room, SideFor(room, u).value) == Ok(u)
    ensures room.player2.Some? && room.player2.value != room.player1 ==>
      SideFor(room, WinnerIdFor(room, side).value) == Ok(side)
  {
  }

  /** The side facing `side`. */
  function Opponent(side: GameTypes.Side): (o: GameTypes.Side)
    ensures o != side
  {
    if side == GameTypes.P1 then GameTypes.P2 else GameTypes.P1
  }

  /** The rows the game service reads and writes. */
  datatype Tables = Tables(books: Books, rooms: map<RoomId, Room>, moves: seq<MoveRecord>)

  function TablesOf(db: Store): Tables
    reads db
  {
    Tables(db.books, db.rooms, db.moves)
  }

  /** The ledger shows both players' stakes locked for the room. */
  predicate StakesLocked(b: Books, room: Room) {
    && room.player2.Some?
    && Txn(room.player1, Lock, room.stakeAsset, room.stakeAmount, Completed, Game(room.id)) in b.ledger
    && Txn(room.player2.value, Lock, room.stakeAsset, room.stakeAmount, Completed, Game(room.id)) in b.ledger
  }

  /** `startGame` on the tables: the room it returns, or its error, with the
      tables as the separate writes leave them. The engine's first state is
      stored before either stake is locked, and each lock is a write of its own. */
  function StartGameEffect(t: Tables, js: ChessEngine.ChessJs, roomId: RoomId): (Result<Room>, Tables) {
    if roomId !in t.rooms then (Err("Room not found"), t)
    else
      var room := t.rooms[roomId];
      if room.status != Active then (Err("Room not active"), t)
      else if room.player2.None? then (Err("Missing opponent"), t)
      else if room.gameState.Some? then (Ok(room), t)
      else
        var updated := room.(gameState := Some(Registry.Create(js, room.gameType)));
        var t1 := t.(rooms := t.rooms[roomId := updated]);
        match Wallet.LockEffect(t1.books, room.player1, room.stakeAsset, room.stakeAmount, room.id)
        case Err(e) => (Err(e), t1)
        case Ok(b2) =>
          match Wallet.LockEffect(b2, room.player2.value, room.stakeAsset, room.stakeAmount, room.id)
          case Err(e) => (Err(e), t1.(books := b2))
          case Ok(b3) => (Ok(updated), t1.(books := b3))
  }

  /** `startGame`. */
  method StartGame(db: Store, js: ChessEngine.ChessJs, roomId: RoomId) returns (r: Result<Room>)
    requires db.Valid()
    modifies db`rooms, db`books
    ensures db.Valid()
    ensures StartGameEffect(old(TablesOf(db)), js, roomId) == (r, TablesOf(db))
  {
    if roomId !in db.rooms {
      return Err("Room not found");
    }
    var room := db.rooms[roomId];
    if room.status != Active {
      return Err("Room not active");
    }
    if room.player2.None? {
      return Err("Missing opponent");
    }
    if room.gameState.Some? {
      return Ok(room);
    }
    var updated := room.(gameState := Some(Registry.Create(js, room.gameType)));
    ReplaceRoomValid(db.rooms, db.settled, updated);
    db.rooms := db.rooms[roomId := updated];
    var lock1 := Wallet.LockForGame(db, room.player1, room.stakeAsset, room.stakeAmount, room.id);
    if lock1.Fail? {
      return Err(lock1.error);
    }
    var lock2 := Wallet.LockForGame(db, room.player2.value, room.stakeAsset, room.stakeAmount, room.id);
    if lock2.Fail? {
      return Err(lock2.error);
    }
    return Ok(updated);
  }

  /** A first successful start stores the engine's first state, keeps the room
      ACTIVE, and locks the stake of each player: each row's available balance
      falls by the stake and its locked balance rises by it, and the ledger
      gains the two LOCK entries in player order. */
  lemma StartGameLocksBoth(t: Tables, js: ChessEngine.ChessJs, roomId: RoomId)
    requires roomId in t.rooms && t.rooms[roomId].gameState.None?
    requires RoomWellFormed(t.rooms[roomId]) && t.rooms[roomId].id == roomId
    requires StartGameEffect(t, js, roomId).0.Ok?
    ensures var room := t.rooms[roomId];
      var (r, t') := StartGameEffect(t, js, roomId);
      var p1, p2, a, s := room.player1, room.player2.value, room.stakeAsset, room.stakeAmount;
      && r.value == room.(gameState := Some(Registry.Create(js, room.gameType)))
      && t'.rooms == t.rooms[roomId := r.value] && t'.moves == t.moves
      && r.value.status == Active
      && t'.books.wallets[p1][a] == Balance(t.books.wallets[p1][a].avail - s, t.books.wallets[p1][a].locked + s)
      && t'.books.wallets[p2][a] == Balance(t.books.wallets[p2][a].avail - s, t.books.wallets[p2][a].locked + s)
      && t'.books.ledger == t.books.ledger + [Txn(p1, Lock, a, s, Completed, Game(roomId)),
                                             Txn(p2, Lock, a, s, Completed, Game(roomId))]
      && StakesLocked(t'.books, r.value)
  {
    var room := t.rooms[roomId];
    var p1, p2, a, s := room.player1, room.player2.value, room.stakeAsset, room.stakeAmount;
    var b2 := Wallet.LockEffect(t.books, p1, a, s, roomId).value;
    var b3 := Wallet.LockEffect(b2, p2, a, s, roomId).value;
    assert b3.ledger == t.books.ledger + [Txn(p1, Lock, a, s, Completed, Game(roomId)),
                                          Txn(p2, Lock, a, s, Completed, Game(roomId))];
  }

  /** Starting is idempotent: once a start has succeeded, a second one returns
      the same room and writes nothing, in particular locks no stake again. */
  lemma StartGameTwice(t: Tables, js: ChessEngine.ChessJs, roomId: RoomId)
    requires StartGameEffect(t, js, roomId).0.Ok?
    ensures var (r, t') := StartGameEffect(t, js, roomId);
      StartGameEffect(t', js, roomId) == (r, t')
  {
  }

  /** How a game ended, and who won. */
  datatype MoveReply =
    | Continued(room: Room, state: Registry.EngineState)
    | Finished(room: Room, state: Registry.EngineState, end: GameTypes.End, winnerId: Option<UserId>, settlement: Wallet.Settlement)

  /** The winner's id of an end: none for a draw. */
  function EndWinner(room: Room, end: GameTypes.End): (r: Result<Option<UserId>>)
    ensures end.winnerSide.None? ==> r == Ok(None)
    ensures end.winnerSide.Some? && r.Ok? ==> r.value.Some? && WinnerIdFor(room, end.winnerSide.value) == Ok(r.value.value)
    ensures end.winnerSide.Some? && r.Err? ==> WinnerIdFor(room, end.winnerSide.value) == Err(r.error)
  {
    if end.winnerSide.None? then Ok(None)
    else match WinnerIdFor(room, end.winnerSide.value)
      case Err(e) => Err(e)
      case Ok(w) => Ok(Some(w))
  }

  /** Writing the ended room, then settling its stakes with its winner: the two
      writes of a finished game. The write stays when the settlement fails. */
  function CloseEffect(t: Tables, refs: map<UserId, UserId>, cfg: Wallet.Config, closed: Room)
    : (Result<Wallet.Settlement>, Tables)
    requires closed.player2.Some?
  {
    var t1 := t.(rooms := t.rooms[closed.id := closed]);
    match Wallet.SettleEffect(t1.books, refs, cfg, closed.id, closed.stakeAsset, closed.stakeAmount,
                              closed.player1, closed.player2.value, closed.winner)
    case Err(e) => (Err(e), t1)
    case Ok((b, s)) => (Ok(s), t1.(books := b))
  }

  /** The two writes of a finished game. A room reaches this only from ACTIVE,
      so it was never settled before, and it is recorded as settled once. */
  method Close(db: Store, cfg: Wallet.Config, closed: Room) returns (s: Result<Wallet.Settlement>)
    requires db.Valid() && Wallet.ValidConfig(cfg)
    requires closed.id in db.rooms && db.rooms[closed.id].status == Active
    requires closed.status == Ended && RoomWellFormed(closed)
    requires closed.inviteCode == db.rooms[closed.id].inviteCode
    modifies db`rooms, db`books, db`settled
    ensures db.Valid()
    ensures CloseEffect(old(TablesOf(db)), db.referredBy, cfg, closed) == (s, TablesOf(db))
    ensures db.settled == old(db.settled) + (if s.Ok? then [closed.id] else [])
  {
    UnendedNotSettled(db.rooms, db.settled, closed.id);
    ReplaceRoomValid(db.rooms, db.settled, closed);
    db.rooms := db.rooms[closed.id := closed];
    s := Wallet.SettleWinnerTakeAll(db, cfg, closed.id, closed.stakeAsset, closed.stakeAmount,
                                    closed.player1, closed.player2.value, closed.winner);
    if s.Ok? {
      SettleRoomValid(db.rooms, db.settled, closed.id);
      db.settled := db.settled + [closed.id];
    }
  }

  /** `applyMove` on the tables: the guards, then the engine; an accepted move
      is recorded first, and then either the new state is stored or the game
      is closed and settled. */
  function ApplyMoveEffect(t: Tables, refs: map<UserId, UserId>, cfg: Wallet.Config, js: ChessEngine.ChessJs,
                           roomId: RoomId, u: UserId, move: Json): (Result<MoveReply>, Tables)
    requires roomId in t.rooms ==> RoomWellFormed(t.rooms[roomId])
  {
    if roomId !in t.rooms then (Err("Room not found"), t)
    else
      var room := t.rooms[roomId];
      if room.status != Active then (Err("Room not active"), t)
      else if room.player2.None? then (Err("Missing opponent"), t)
      else if room.gameState.None? then (Err("Game not started"), t)
      else match SideFor(room, u)
        case Err(e) => (Err(e), t)
        case Ok(side) =>
          match Registry.Apply(js, room.gameType, room.gameState.value, side, move)
          case Refused(e) => (Err(e), t)
          case Moved(state, end) => PlayEffect(t, refs, cfg, room, u, move, state, end)
  }

  /** The writes of an accepted move: the move record, then either the new
      state or the closing of the game. */
  function PlayEffect(t: Tables, refs: map<UserId, UserId>, cfg: Wallet.Config, room: Room, u: UserId, move: Json,
                      state: Registry.EngineState, end: Option<GameTypes.End>): (Result<MoveReply>, Tables)
    requires room.player2.Some?
  {
    var t1 := t.(moves := t.moves + [MoveRecord(room.id, u, move)]);
    match end
    case None =>
      var updated := room.(gameState := Some(state));
      (Ok(Continued(updated, state)), t1.(rooms := t1.rooms[room.id := updated]))
    case Some(e) =>
      match EndWinner(room, e)
      case Err(msg) => (Err(msg), t1)
      case Ok(winnerId) =>
        var closed := room.(status := Ended, winner := winnerId, gameState := Some(state));
        match CloseEffect(t1, refs, cfg, closed)
        case (Err(msg), t2) => (Err(msg), t2)
        case (Ok(s), t2) => (Ok(Finished(closed, state, e, winnerId, s)), t2)
  }

  /** `applyMove`. */
  method ApplyMove(db: Store, cfg: Wallet.Config, js: ChessEngine.ChessJs, roomId: RoomId, u: UserId, move: Json)
    returns (r: Result<MoveReply>)
    requires db.Valid() && Wallet.ValidConfig(cfg)
    modifies db`rooms, db`books, db`moves, db`settled
    ensures db.Valid()
    ensures ApplyMoveEffect(old(TablesOf(db)), db.referredBy, cfg, js, roomId, u, move) == (r, TablesOf(db))
    ensures db.settled == old(db.settled) + (if r.Ok? && r.value.Finished? then [roomId] else [])
  {
    if roomId !in db.rooms {
      return Err("Room not found");
    }
    var room := db.rooms[roomId];
    if room.status != Active {
      return Err("Room not active");
    }
    if room.player2.None? {
      return Err("Missing opponent");
    }
    if room.gameState.None? {
      return Err("Game not started");
    }
    var side := SideFor(room, u);
    if side.Err? {
      return Err(side.error);
    }
    var result := Registry.Apply(js, room.gameType, room.gameState.value, side.value, move);
    if result.Refused? {
      return Err(result.error);
    }
    r := Play(db, cfg, room, u, move, result.state, result.end);
  }

  /** The writes of an accepted move. */
  method Play(db: Store, cfg: Wallet.Config, room: Room, u: UserId, move: Json,
              state: Registry.EngineState, end: Option<GameTypes.End>) returns (r: Result<MoveReply>)
    requires db.Valid() && Wallet.ValidConfig(cfg)
    requires room.id in db.rooms && db.rooms[room.id] == room
    requires room.status == Active && room.player2.Some? && Registry.Matches(room.gameType, state)
    modifies db`rooms, db`books, db`moves, db`settled
    ensures db.Valid()
    ensures PlayEffect(old(TablesOf(db)), db.referredBy, cfg, room, u, move, state, end) == (r, TablesOf(db))
    ensures db.settled == old(db.settled) + (if r.Ok? && r.value.Finished? then [room.id] else [])
  {
    db.moves := db.moves + [MoveRecord(room.id, u, move)];
    if end.None? {
      var updated := room.(gameState := Some(state));
      ReplaceRoomValid(db.rooms, db.settled, updated);
      db.rooms := db.rooms[room.id := updated];
      return Ok(Continued(updated, state));
    }
    // `winnerIdFor` cannot throw here: the room has its second player.
    var winnerId := EndWinner(room, end.value).value;
    var closed := room.(status := Ended, winner := winnerId, gameState := Some(state));
    var s := Close(db, cfg, closed);
    if s.Err? {
      return Err(s.error);
    }
    return Ok(Finished(closed, state, end.value, winnerId, s.value));
  }

  /** A move the engine refuses is refused with the engine's message, and
      nothing is written: no move record, no state, no balance. */
  lemma MoveRefusedWritesNothing(t: Tables, refs: map<UserId, UserId>, cfg: Wallet.Config, js: ChessEngine.ChessJs,
                                 roomId: RoomId, u: UserId, move: Json, side: GameTypes.Side)
    requires roomId in t.rooms && RoomWellFormed(t.rooms[roomId])
    requires var room := t.rooms[roomId];
      && room.status == Active && room.player2.Some? && room.gameState.Some? && SideFor(room, u) == Ok(side)
      && Registry.Apply(js, room.gameType, room.gameState.value, side, move).Refused?
    ensures var room := t.rooms[roomId];
      ApplyMoveEffect(t, refs, cfg, js, roomId, u, move)
        == (Err(Registry.Apply(js, room.gameType, room.gameState.value, side, move).error), t)
  {
  }

  /** A move that does not end the game appends one move record, replaces the
      stored state, keeps the room ACTIVE, and touches no balance. */
  lemma MoveContinues(t: Tables, refs: map<UserId, UserId>, cfg: Wallet.Config, js: ChessEngine.ChessJs,
                      roomId: RoomId, u: UserId, move: Json)
    requires roomId in t.rooms && RoomWellFormed(t.rooms[roomId]) && t.rooms[roomId].id == roomId
    requires var (r, _) := ApplyMoveEffect(t, refs, cfg, js, roomId, u, move); r.Ok? && r.value.Continued?
    ensures var room := t.rooms[roomId];
      var (r, t') := ApplyMoveEffect(t, refs, cfg, js, roomId, u, move);
      && room.status == Active
      && t'.moves == t.moves + [MoveRecord(roomId, u, move)]
      && t'.rooms == t.rooms[roomId := room.(gameState := Some(r.value.state))]
      && t'.books == t.books
      && Registry.Status(r.value.state) == GameTypes.Active
      && Registry.Matches(room.gameType, r.value.state)
  {
  }

  /** A move that ends the game appends one move record, marks the room ENDED
      with the winner of the engine's winning side (none for a draw), stores
      the final state, and settles the stakes once with that winner. */
  lemma MoveEnds(t: Tables, refs: map<UserId, UserId>, cfg: Wallet.Config, js: ChessEngine.ChessJs,
                 roomId: RoomId, u: UserId, move: Json)
    requires roomId in t.rooms && RoomWellFormed(t.rooms[roomId]) && t.rooms[roomId].id == roomId
    requires var (r, _) := ApplyMoveEffect(t, refs, cfg, js, roomId, u, move); r.Ok? && r.value.Finished?
    ensures var room := t.rooms[roomId];
      var (r, t') := ApplyMoveEffect(t, refs, cfg, js, roomId, u, move);
      var f := r.value;
      && room.status == Active && room.player2.Some?
      && t'.moves == t.moves + [MoveRecord(roomId, u, move)]
      && f.room == room.(status := Ended, winner := f.winnerId, gameState := Some(f.state))
      && t'.rooms == t.rooms[roomId := f.room]
      && (f.end.winnerSide.None? ==> f.winnerId.None?)
      && (f.end.winnerSide.Some? ==> f.winnerId.Some? && SideFor(room, f.winnerId.value) == Ok(f.end.winnerSide.value))
      && Wallet.SettleEffect(t.books, refs, cfg, roomId, room.stakeAsset, room.stakeAmount,
                             room.player1, room.player2.value, f.winnerId) == Ok((t'.books, f.settlement))
  {
    var room := t.rooms[roomId];
    var r := ApplyMoveEffect(t, refs, cfg, js, roomId, u, move).0;
    if r.value.end.winnerSide.Some? {
      SideForWinnerIdFor(room, u, r.value.end.winnerSide.value);
    }
  }

  /** What `resign` reports: the ended room, its winner, the reason (by default
      "resign") and the settlement. */
  datatype ResignReply = ResignReply(room: Room, winnerId: UserId, reason: string, settlement: Wallet.Settlement)

  /** `resign` on the tables: the guards (no game state needed), then the
      other side wins, the room is closed and settled. */
  function ResignEffect(t: Tables, refs: map<UserId, UserId>, cfg: Wallet.Config,
                        roomId: RoomId, u: UserId, reason: Option<string>): (Result<ResignReply>, Tables) {
    if roomId !in t.rooms then (Err("Room not found"), t)
    else
      var room := t.rooms[roomId];
      if room.status != Active then (Err("Room not active"), t)
      else if room.player2.None? then (Err("Missing opponent"), t)
      else match SideFor(room, u)
        case Err(e) => (Err(e), t)
        case Ok(side) =>
          match WinnerIdFor(room, Opponent(side))
          case Err(e) => (Err(e), t)
          case Ok(w) =>
            var closed := room.(status := Ended, winner := Some(w));
            match CloseEffect(t, refs, cfg, closed)
            case (Err(e), t2) => (Err(e), t2)
            case (Ok(s), t2) =>
              (Ok(ResignReply(closed, w, if reason.Some? then reason.value else "resign", s)), t2)
  }

  /** `resign`. */
  method Resign(db: Store, cfg: Wallet.Config, roomId: RoomId, u: UserId, reason: Option<string>)
    returns (r: Result<ResignReply>)
    requires db.Valid() && Wallet.ValidConfig(cfg)
    modifies db`rooms, db`books, db`settled
    ensures db.Valid()
    ensures ResignEffect(old(TablesOf(db)), db.referredBy, cfg, roomId, u, reason) == (r, TablesOf(db))
    ensures db.settled == old(db.settled) + (if r.Ok? then [roomId] else [])
  {
    if roomId !in db.rooms {
      return Err("Room not found");
    }
    var room := db.rooms[roomId];
    if room.status != Active {
      return Err("Room not active");
    }
    if room.player2.None? {
      return Err("Missing opponent");
    }
    var side := SideFor(room, u);
    if side.Err? {
      return Err(side.error);
    }
    // `winnerIdFor` cannot throw here: the room has its second player.
    var w := WinnerIdFor(room, Opponent(side.value)).value;
    var closed := room.(status := Ended, winner := Some(w));
    var s := Close(db, cfg, closed);
    if s.Err? {
      return Err(s.error);
    }
    return Ok(ResignReply(closed, w, if reason.Some? then reason.value else "resign", s.value));
  }

  /** Whoever resigns loses: the other player of the room wins, the room ends,
      and the reason is "resign" unless another was given. */
  lemma ResignOtherWins(t: Tables, refs: map<UserId, UserId>, cfg: Wallet.Config,
                        roomId: RoomId, u: UserId, reason: Option<string>)
    requires roomId in t.rooms && RoomWellFormed(t.rooms[roomId])
    requires ResignEffect(t, refs, cfg, roomId, u, reason).0.Ok?
    ensures var room := t.rooms[roomId];
      var r := ResignEffect(t, refs, cfg, roomId, u, reason).0.value;
      && (u == room.player1 || room.player2 == Some(u))
      && r.winnerId != u
      && (r.winnerId == room.player1 || room.player2 == Some(r.winnerId))
      && r.room == room.(status := Ended, winner := Some(r.winnerId))
      && r.reason == (if reason.None? then "resign" else reason.value)
  {
  }

  /** `cancelRoom` on the tables: nothing for a missing, ended or cancelled
      room; otherwise the room is marked CANCELLED, and when it was ACTIVE with
      a second player both stakes are unlocked, each as a separate write. */
  function CancelEffect(t: Tables, roomId: RoomId, reason: string): (Result<Option<(Room, string)>>, Tables) {
    if roomId !in t.rooms then (Ok(None), t)
    else
      var room := t.rooms[roomId];
      if room.status == Ended || room.status == Cancelled then (Ok(None), t)
      else
        var updated := room.(status := Cancelled);
        var t1 := t.(rooms := t.rooms[roomId := updated]);
        if room.status == Active && room.player2.Some? then
          match Wallet.UnlockEffect(t1.books, room.player1, room.stakeAsset, room.stakeAmount, room.id)
          case Err(e) => (Err(e), t1)
          case Ok(b2) =>
            match Wallet.UnlockEffect(b2, room.player2.value, room.stakeAsset, room.stakeAmount, room.id)
            case Err(e) => (Err(e), t1.(books := b2))
            case Ok(b3) => (Ok(Some((updated, reason))), t1.(books := b3))
        else (Ok(Some((updated, reason))), t1)
  }

  /** `cancelRoom`. */
  method CancelRoom(db: Store, roomId: RoomId, reason: string) returns (r: Result<Option<(Room, string)>>)
    requires db.Valid()
    modifies db`rooms, db`books
    ensures db.Valid()
    ensures CancelEffect(old(TablesOf(db)), roomId, reason) == (r, TablesOf(db))
  {
    if roomId !in db.rooms {
      return Ok(None);
    }
    var room := db.rooms[roomId];
    if room.status == Ended || room.status == Cancelled {
      return Ok(None);
    }
    var updated := room.(status := Cancelled);
    ReplaceRoomValid(db.rooms, db.settled, updated);
    db.rooms := db.rooms[roomId := updated];
    if room.status == Active && room.player2.Some? {
      var u1 := Wallet.UnlockFromGame(db, room.player1, room.stakeAsset, room.stakeAmount, room.id);
      if u1.Fail? {
        return Err(u1.error);
      }
      var u2 := Wallet.UnlockFromGame(db, room.player2.value, room.stakeAsset, room.stakeAmount, room.id);
      if u2.Fail? {
        return Err(u2.error);
      }
    }
    return Ok(Some((updated, reason)));
  }

  /** A successful cancel of a room that was ACTIVE with a second player hands
      both stakes back: each row's locked balance falls by the stake and its
      available balance rises by it, every other row stays as it was, and the
      ledger gains just the two UNLOCK entries. A waiting room is cancelled
      without touching any balance. */
  lemma CancelRefunds(t: Tables, roomId: RoomId, reason: string)
    requires roomId in t.rooms && RoomWellFormed(t.rooms[roomId]) && t.rooms[roomId].id == roomId
    requires t.rooms[roomId].status == Active || t.rooms[roomId].status == Waiting
    requires CancelEffect(t, roomId, reason).0.Ok?
    ensures var room := t.rooms[roomId];
      var (r, t') := CancelEffect(t, roomId, reason);
      var a, s := room.stakeAsset, room.stakeAmount;
      && r == Ok(Some((room.(status := Cancelled), reason)))
      && t'.rooms == t.rooms[roomId := room.(status := Cancelled)]
      && (room.status == Active ==>
            var p1, p2 := room.player1, room.player2.value;
            && t'.books.wallets[p1][a] == Balance(t.books.wallets[p1][a].avail + s, t.books.wallets[p1][a].locked - s)
            && t'.books.wallets[p2][a] == Balance(t.books.wallets[p2][a].avail + s, t.books.wallets[p2][a].locked - s)
            && (forall u, c :: HasAsset(t.books.wallets, u, c) && !(c == a && (u == p1 || u == p2))
                  ==> HasAsset(t'.books.wallets, u, c) && t'.books.wallets[u][c] == t.books.wallets[u][c])
            && t'.books.ledger == t.books.ledger + [Txn(p1, Unlock, a, s, Completed, Game(roomId)),
                                                    Txn(p2, Unlock, a, s, Completed, Game(roomId))])
      && (room.status == Waiting ==> t'.books == t.books)
  {
  }

  /** A room that is no longer ACTIVE is final for play: starting, moving and
      resigning are refused as not active and write nothing; an ended or
      cancelled room is not cancelled again. */
  lemma ClosedRoomIsFinal(t: Tables, refs: map<UserId, UserId>, cfg: Wallet.Config, js: ChessEngine.ChessJs,
                          roomId: RoomId, u: UserId, move: Json, reason: Option<string>, why: string)
    requires roomId in t.rooms && RoomWellFormed(t.rooms[roomId])
    requires t.rooms[roomId].status == Ended || t.rooms[roomId].status == Cancelled
    ensures StartGameEffect(t, js, roomId) == (Err("Room not active"), t)
    ensures ApplyMoveEffect(t, refs, cfg, js, roomId, u, move) == (Err("Room not active"), t)
    ensures ResignEffect(t, refs, cfg, roomId, u, reason) == (Err("Room not active"), t)
    ensures CancelEffect(t, roomId, why) == (Ok(None), t)
  {
  }

  /** A room settles at most once: after a move has finished its game, no
      later move or resignation, by anyone, settles it again. */
  lemma FinishedGameSettlesOnce(t: Tables, refs: map<UserId, UserId>, cfg: Wallet.Config, js: ChessEngine.ChessJs,
                                roomId: RoomId, u: UserId, move: Json,
                                v: UserId, move2: Json, reason: Option<string>)
    requires roomId in t.rooms && RoomWellFormed(t.rooms[roomId]) && t.rooms[roomId].id == roomId
    requires var (r, _) := ApplyMoveEffect(t, refs, cfg, js, roomId, u, move); r.Ok? && r.value.Finished?
    ensures var t' := ApplyMoveEffect(t, refs, cfg, js, roomId, u, move).1;
      && ApplyMoveEffect(t', refs, cfg, js, roomId, v, move2) == (Err("Room not active"), t')
      && ResignEffect(t', refs, cfg, roomId, v, reason) == (Err("Room not active"), t')
  {
    MoveEnds(t, refs, cfg, js, roomId, u, move);
  }

  /** The start of a game as evidently intended: both stakes are locked before
      anything is written, so either the game starts with both stakes locked
      or nothing changes at all. */
  function StartGameAtomicEffect(t: Tables, js: ChessEngine.ChessJs, roomId: RoomId): (Result<Room>, Tables) {
    if roomId !in t.rooms then (Err("Room not found"), t)
    else
      var room := t.rooms[roomId];
      if room.status != Active then (Err("Room not active"), t)
      else if room.player2.None? then (Err("Missing opponent"), t)
      else if room.gameState.Some? then (Ok(room), t)
      else
        match Wallet.LockEffect(t.books, room.player1, room.stakeAsset, room.stakeAmount, room.id)
        case Err(e) => (Err(e), t)
        case Ok(b2) =>
          match Wallet.LockEffect(b2, room.player2.value, room.stakeAsset, room.stakeAmount, room.id)
          case Err(e) => (Err(e), t)
          case Ok(b3) =>
            var updated := room.(gameState := Some(Registry.Create(js, room.gameType)));
            (Ok(updated), Tables(b3, t.rooms[roomId := updated], t.moves))
  }

  /** The corrected `startGame` on the store: both locks are checked before
      the first write, then both stakes are locked and the state is stored. */
  method StartGameAtomic(db: Store, js: ChessEngine.ChessJs, roomId: RoomId) returns (r: Result<Room>)
    requires db.Valid()
    modifies db`rooms, db`books
    ensures db.Valid()
    ensures StartGameAtomicEffect(old(TablesOf(db)), js, roomId) == (r, TablesOf(db))
  {
    if roomId !in db.rooms {
      return Err("Room not found");
    }
    var room := db.rooms[roomId];
    if room.status != Active {
      return Err("Room not active");
    }
    if room.player2.None? {
      return Err("Missing opponent");
    }
    if room.gameState.Some? {
      return Ok(room);
    }
    var first := Wallet.LockEffect(db.books, room.player1, room.stakeAsset, room.stakeAmount, room.id);
    if first.Err? {
      return Err(first.error);
    }
    var second := Wallet.LockEffect(first.value, room.player2.value, room.stakeAsset, room.stakeAmount, room.id);
    if second.Err? {
      return Err(second.error);
    }
    var lock1 := Wallet.LockForGame(db, room.player1, room.stakeAsset, room.stakeAmount, room.id);
    var lock2 := Wallet.LockForGame(db, room.player2.value, room.stakeAsset, room.stakeAmount, room.id);
    var updated := room.(gameState := Some(Registry.Create(js, room.gameType)));
    ReplaceRoomValid(db.rooms, db.settled, updated);
    db.rooms := db.rooms[roomId := updated];
    return Ok(updated);
  }

  /** Every running game has both stakes locked on the ledger. */
  predicate StartedGamesLocked(t: Tables) {
    forall id :: id in t.rooms && t.rooms[id].status == Active && t.rooms[id].gameState.Some?
      ==> StakesLocked(t.books, t.rooms[id])
  }

  /** The atomic start keeps every running game's stakes locked, and a failed
      start changes nothing, so a retry starts over and locks again. */
  lemma StartGameAtomicKeepsLocked(t: Tables, js: ChessEngine.ChessJs, roomId: RoomId)
    requires StartedGamesLocked(t)
    requires roomId in t.rooms ==> t.rooms[roomId].id == roomId
    ensures StartedGamesLocked(StartGameAtomicEffect(t, js, roomId).1)
    ensures StartGameAtomicEffect(t, js, roomId).0.Err? ==> StartGameAtomicEffect(t, js, roomId).1 == t
  {
    var (r, t') := StartGameAtomicEffect(t, js, roomId);
    if roomId in t.rooms && r.Ok? && t.rooms[roomId].gameState.None? {
      var room := t.rooms[roomId];
      var b2 := Wallet.LockEffect(t.books, room.player1, room.stakeAsset, room.stakeAmount, roomId).value;
      assert t'.books.ledger == t.books.ledger + [Txn(room.player1, Lock, room.stakeAsset, room.stakeAmount, Completed, Game(roomId)),
                                                 Txn(room.player2.value, Lock, room.stakeAsset, room.stakeAmount, Completed, Game(roomId))];
      forall id | id in t'.rooms && t'.rooms[id].status == Active && t'.rooms[id].gameState.Some?
        ensures StakesLocked(t'.books, t'.rooms[id])
      {
        if id != roomId {
          assert StakesLocked(t.books, t.rooms[id]);
        }
      }
    }
  }

  /** The start as written breaks that: two players in an ACTIVE room, the
      first with nothing available. The first start stores the game's state
      and then fails to lock; a retry finds the state, reports the game as
      started and locks nothing, so a game runs with no stake locked. */
  lemma StartGameRetryRunsUnlocked(js: ChessEngine.ChessJs)
    ensures var room := Room("r", TicTacToe, USDT, 1.0, Active, false, None, "a", Some("b"), None, None);
      var t0 := Tables(Books(map["a" := map[USDT := Balance(0.0, 0.0)], "b" := map[USDT := Balance(5.0, 0.0)]], [], []),
                       map["r" := room], []);
      var (r1, t1) := StartGameEffect(t0, js, "r");
      var (r2, t2) := StartGameEffect(t1, js, "r");
      && StartedGamesLocked(t0)
      && r1 == Err("Insufficient balance")
      && r2.Ok? && t2 == t1 && t2.books == t0.books
      && t2.rooms["r"].status == Active && t2.rooms["r"].gameState.Some?
      && !StartedGamesLocked(t2)
  {
    var room := Room("r", TicTacToe, USDT, 1.0, Active, false, None, "a", Some("b"), None, None);
    var t0 := Tables(Books(map["a" := map[USDT := Balance(0.0, 0.0)], "b" := map[USDT := Balance(5.0, 0.0)]], [], []),
                     map["r" := room], []);
    var t1 := StartGameEffect(t0, js, "r").1;
    assert Wallet.LockEffect(t0.books, "a", USDT, 1.0, "r") == Err("Insufficient balance");
    assert !StakesLocked(t1.books, t1.rooms["r"]);
  }

  /** The same failed start is playable without a second `startGame`: the
      stored state is all `applyMove` asks for, so "a" takes cell 0 and the
      game goes on with no stake locked. */
  lemma StartGameFailedStillPlays(js: ChessEngine.ChessJs, refs: map<UserId, UserId>, cfg: Wallet.Config)
    ensures var room := Room("r", TicTacToe, USDT, 1.0, Active, false, None, "a", Some("b"), None, None);
      var t0 := Tables(Books(map["a" := map[USDT := Balance(0.0, 0.0)], "b" := map[USDT := Balance(5.0, 0.0)]], [], []),
                       map["r" := room], []);
      var (r1, t1) := StartGameEffect(t0, js, "r");
      var (r2, t2) := ApplyMoveEffect(t1, refs, cfg, js, "r", "a", JObj(map["index" := JNum(0.0)]));
      && r1 == Err("Insufficient balance")
      && r2.Ok? && r2.value.Continued? && t2.books == t0.books
      && t2.rooms["r"].status == Active && !StakesLocked(t2.books, t2.rooms["r"])
  {
    var room := Room("r", TicTacToe, USDT, 1.0, Active, false, None, "a", Some("b"), None, None);
    var t0 := Tables(Books(map["a" := map[USDT := Balance(0.0, 0.0)], "b" := map[USDT := Balance(5.0, 0.0)]], [], []),
                     map["r" := room], []);
    assert Wallet.LockEffect(t0.books, "a", USDT, 1.0, "r") == Err("Insufficient balance");
    var t1 := StartGameEffect(t0, js, "r").1;
    var move := JObj(map["index" := JNum(0.0)]);
    var s0 := TicTacToeEngine.Create();
    assert t1.rooms["r"] == room.(gameState := Some(Registry.TttGame(s0)));
    assert TicTacToeEngine.MoveIndex(move) == Some(0);
    var board := s0.snapshot[0 := TicTacToeEngine.X];
    assert board == [TicTacToeEngine.X] + seq(8, _ => TicTacToeEngine.Empty);
    assert TicTacToeEngine.Winner(board) == TicTacToeEngine.Empty;
    assert !TicTacToeEngine.Full(board);
  }

  /** When it is the second lock that fails, the first player's stake stays
      locked in a game that reports "Insufficient balance": the stored state
      and one LOCK remain, and the room's stakes are not both locked. */
  lemma StartGameSecondLockFails(t: Tables, js: ChessEngine.ChessJs, roomId: RoomId)
    requires roomId in t.rooms && t.rooms[roomId].id == roomId
    requires t.rooms[roomId].status == Active && t.rooms[roomId].player2.Some? && t.rooms[roomId].gameState.None?
    requires t.rooms[roomId].stakeAmount > 0.0
    requires HasAsset(t.books.wallets, t.rooms[roomId].player1, t.rooms[roomId].stakeAsset)
    requires HasAsset(t.books.wallets, t.rooms[roomId].player2.value, t.rooms[roomId].stakeAsset)
    requires t.rooms[roomId].player1 != t.rooms[roomId].player2.value
    requires t.books.wallets[t.rooms[roomId].player1][t.rooms[roomId].stakeAsset].avail >= t.rooms[roomId].stakeAmount
    requires t.books.wallets[t.rooms[roomId].player2.value][t.rooms[roomId].stakeAsset].avail < t.rooms[roomId].stakeAmount
    ensures var room := t.rooms[roomId];
      var p1, p2, a, s := room.player1, room.player2.value, room.stakeAsset, room.stakeAmount;
      var (r, t') := StartGameEffect(t, js, roomId);
      && r == Err("Insufficient balance")
      && t'.rooms[roomId].gameState == Some(Registry.Create(js, room.gameType))
      && t'.books.wallets[p1][a] == Balance(t.books.wallets[p1][a].avail - s, t.books.wallets[p1][a].locked + s)
      && t'.books.wallets[p2][a] == t.books.wallets[p2][a]
      && t'.books.ledger == t.books.ledger + [Txn(p1, Lock, a, s, Completed, Game(roomId))]
  {
    var room := t.rooms[roomId];
    var b2 := Wallet.LockEffect(t.books, room.player1, room.stakeAsset, room.stakeAmount, roomId).value;
    assert b2.wallets[room.player2.value][room.stakeAsset] == t.books.wallets[room.player2.value][room.stakeAsset];
  }

  /** The atomic start on the same tables: the failure writes nothing, so the
      room still has no game state and the next start tries the locks again. */
  lemma StartGameAtomicRetryLocks(js: ChessEngine.ChessJs)
    ensures var room := Room("r", TicTacToe, USDT, 1.0, Active, false, None, "a", Some("b"), None, None);
      var t0 := Tables(Books(map["a" := map[USDT := Balance(0.0, 0.0)], "b" := map[USDT := Balance(5.0, 0.0)]], [], []),
                       map["r" := room], []);
      StartGameAtomicEffect(t0, js, "r") == (Err("Insufficient balance"), t0)
  {
    var t0 := Tables(Books(map["a" := map[USDT := Balance(0.0, 0.0)], "b" := map[USDT := Balance(5.0, 0.0)]], [], []),
                     map["r" := Room("r", TicTacToe, USDT, 1.0, Active, false, None, "a", Some("b"), None, None)], []);
    assert Wallet.LockEffect(t0.books, "a", USDT, 1.0, "r") == Err("Insufficient balance");
  }

  /** The cancel as written on the tables the failed start leaves: the room
      is ACTIVE with a second player but the start locked nothing, so
      `cancelRoom` marks it CANCELLED and then fails on the first unlock. */
  lemma CancelUnlocksNeverLocked(js: ChessEngine.ChessJs, why: string)
    ensures var room := Room("r", TicTacToe, USDT, 1.0, Active, false, None, "a", Some("b"), None, None);
      var t0 := Tables(Books(map["a" := map[USDT := Balance(0.0, 0.0)], "b" := map[USDT := Balance(5.0, 0.0)]], [], []),
                       map["r" := room], []);
      var t1 := StartGameEffect(t0, js, "r").1;
      var (r, t2) := CancelEffect(t1, "r", why);
      && !LockedFor(t1.books, "a", t1.rooms["r"]) && !LockedFor(t1.books, "b", t1.rooms["r"])
      && r == Err("Locked balance underflow")
      && t2.rooms["r"].status == Cancelled && t2.books == t0.books
  {
    var room := Room("r", TicTacToe, USDT, 1.0, Active, false, None, "a", Some("b"), None, None);
    var t0 := Tables(Books(map["a" := map[USDT := Balance(0.0, 0.0)], "b" := map[USDT := Balance(5.0, 0.0)]], [], []),
                     map["r" := room], []);
    assert Wallet.LockEffect(t0.books, "a", USDT, 1.0, "r") == Err("Insufficient balance");
    var t1 := StartGameEffect(t0, js, "r").1;
    assert t1.books == t0.books;
    assert Wallet.UnlockEffect(t1.books, "a", USDT, 1.0, "r") == Err("Locked balance underflow");
  }

  /** Worse, the same guard releases a stake another game holds: when the
      players of a never-started ACTIVE room also play a running game whose
      stakes are locked, cancelling the first room hands back the second
      game's stakes, which then cannot be settled. */
  lemma CancelReleasesOtherStake(t: Tables, gameId: RoomId, roomId: RoomId, why: string,
                                 refs: map<UserId, UserId>, cfg: Wallet.Config, winner: Option<UserId>)
    requires gameId != roomId && gameId in t.rooms && roomId in t.rooms
    requires t.rooms[gameId].id == gameId && t.rooms[roomId].id == roomId
    requires t.rooms[gameId].status == Active && t.rooms[gameId].gameState.Some? && StakesLocked(t.books, t.rooms[gameId])
    requires t.rooms[roomId].status == Active && t.rooms[roomId].gameState.None?
    requires t.rooms[roomId].player1 == t.rooms[gameId].player1 && t.rooms[roomId].player2 == t.rooms[gameId].player2
    requires t.rooms[roomId].player1 != t.rooms[roomId].player2.value
    requires t.rooms[roomId].stakeAsset == t.rooms[gameId].stakeAsset
    requires t.rooms[roomId].stakeAmount == t.rooms[gameId].stakeAmount > 0.0
    requires !LockedFor(t.books, t.rooms[roomId].player1, t.rooms[roomId])
    requires !LockedFor(t.books, t.rooms[roomId].player2.value, t.rooms[roomId])
    requires HasAsset(t.books.wallets, t.rooms[roomId].player1, t.rooms[roomId].stakeAsset)
    requires HasAsset(t.books.wallets, t.rooms[roomId].player2.value, t.rooms[roomId].stakeAsset)
    requires t.books.wallets[t.rooms[roomId].player1][t.rooms[roomId].stakeAsset].locked == t.rooms[roomId].stakeAmount
    requires t.books.wallets[t.rooms[roomId].player2.value][t.rooms[roomId].stakeAsset].locked == t.rooms[roomId].stakeAmount
    ensures var g, room := t.rooms[gameId], t.rooms[roomId];
      var (res, t1) := CancelEffect(t, roomId, why);
      && res.Ok? && t1.rooms[gameId] == g && StakesLocked(t1.books, g)
      && t1.books.wallets[g.player1][g.stakeAsset].locked == 0.0
      && t1.books.wallets[g.player2.value][g.stakeAsset].locked == 0.0
      && Wallet.SettleEffect(t1.books, refs, cfg, gameId, g.stakeAsset, g.stakeAmount, g.player1, g.player2.value, winner)
         == Err("Locked stake missing")
  {
    var room := t.rooms[roomId];
    var p1, p2, a, s := room.player1, room.player2.value, room.stakeAsset, room.stakeAmount;
    var b2 := Wallet.UnlockEffect(t.books, p1, a, s, roomId).value;
    assert b2.wallets[p2][a] == t.books.wallets[p2][a];
    var b3 := Wallet.UnlockEffect(b2, p2, a, s, roomId).value;
    assert b3.wallets[p1][a] == b2.wallets[p1][a];
  }

  /** The same cancel on concrete tables: "a" and "b" play "g" and also sit
      in the never-started room "r". */
  lemma CancelReleasesOtherStakeExample(st: Registry.EngineState, why: string, refs: map<UserId, UserId>, cfg: Wallet.Config)
    ensures var g := Room("g", TicTacToe, USDT, 1.0, Active, false, None, "a", Some("b"), None, Some(st));
      var r := Room("r", TicTacToe, USDT, 1.0, Active, false, None, "a", Some("b"), None, None);
      var t0 := Tables(Books(map["a" := map[USDT := Balance(0.0, 1.0)], "b" := map[USDT := Balance(0.0, 1.0)]],
                             [Txn("a", Lock, USDT, 1.0, Completed, Game("g")), Txn("b", Lock, USDT, 1.0, Completed, Game("g"))],
                             []),
                       map["g" := g, "r" := r], []);
      var (res, t1) := CancelEffect(t0, "r", why);
      && res.Ok? && StakesLocked(t1.books, g)
      && Wallet.SettleEffect(t1.books, refs, cfg, "g", USDT, 1.0, "a", "b", Some("a")) == Err("Locked stake missing")
  {
    var g := Room("g", TicTacToe, USDT, 1.0, Active, false, None, "a", Some("b"), None, Some(st));
    var r := Room("r", TicTacToe, USDT, 1.0, Active, false, None, "a", Some("b"), None, None);
    var t0 := Tables(Books(map["a" := map[USDT := Balance(0.0, 1.0)], "b" := map[USDT := Balance(0.0, 1.0)]],
                           [Txn("a", Lock, USDT, 1.0, Completed, Game("g")), Txn("b", Lock, USDT, 1.0, Completed, Game("g"))],
                           []),
                     map["g" := g, "r" := r], []);
    assert t0.books.ledger[0] == Txn("a", Lock, USDT, 1.0, Completed, Game("g"));
    assert t0.books.ledger[1] == Txn("b", Lock, USDT, 1.0, Completed, Game("g"));
    CancelReleasesOtherStake(t0, "g", "r", why, refs, cfg, Some("a"));
  }

  /** The ledger holds u's LOCK of the room's stake for this game. */
  predicate LockedFor(b: Books, u: UserId, room: Room) {
    Txn(u, Lock, room.stakeAsset, room.stakeAmount, Completed, Game(room.id)) in b.ledger
  }

  /** One player's refund in the corrected cancel: a stake is unlocked only
      when the ledger shows it locked for this game. */
  function RefundIfLocked(b: Books, u: UserId, room: Room): Result<Books> {
    if LockedFor(b, u, room) then Wallet.UnlockEffect(b, u, room.stakeAsset, room.stakeAmount, room.id) else Ok(b)
  }

  /** The UNLOCK entry the corrected cancel writes for u, if any. */
  function UnlockEntry(b: Books, u: UserId, room: Room): seq<Txn> {
    if LockedFor(b, u, room) then [Txn(u, Unlock, room.stakeAsset, room.stakeAmount, Completed, Game(room.id))] else []
  }

  /** The corrected `cancelRoom` on the tables: as written, except that each
      player's stake is refunded only if it was locked for this game. */
  function CancelGuardedEffect(t: Tables, roomId: RoomId, reason: string): (Result<Option<(Room, string)>>, Tables) {
    if roomId !in t.rooms then (Ok(None), t)
    else
      var room := t.rooms[roomId];
      if room.status == Ended || room.status == Cancelled then (Ok(None), t)
      else
        var updated := room.(status := Cancelled);
        var t1 := t.(rooms := t.rooms[roomId := updated]);
        if room.status == Active && room.player2.Some? then
          match RefundIfLocked(t1.books, room.player1, room)
          case Err(e) => (Err(e), t1)
          case Ok(b2) =>
            match RefundIfLocked(b2, room.player2.value, room)
            case Err(e) => (Err(e), t1.(books := b2))
            case Ok(b3) => (Ok(Some((updated, reason))), t1.(books := b3))
        else (Ok(Some((updated, reason))), t1)
  }

  /** The corrected `cancelRoom` on the store. */
  method CancelRoomGuarded(db: Store, roomId: RoomId, reason: string) returns (r: Result<Option<(Room, string)>>)
    requires db.Valid()
    modifies db`rooms, db`books
    ensures db.Valid()
    ensures CancelGuardedEffect(old(TablesOf(db)), roomId, reason) == (r, TablesOf(db))
  {
    if roomId !in db.rooms {
      return Ok(None);
    }
    var room := db.rooms[roomId];
    if room.status == Ended || room.status == Cancelled {
      return Ok(None);
    }
    var updated := room.(status := Cancelled);
    ReplaceRoomValid(db.rooms, db.settled, updated);
    db.rooms := db.rooms[roomId := updated];
    if room.status == Active && room.player2.Some? {
      if LockedFor(db.books, room.player1, room) {
        var u1 := Wallet.UnlockFromGame(db, room.player1, room.stakeAsset, room.stakeAmount, room.id);
        if u1.Fail? {
          return Err(u1.error);
        }
      }
      if LockedFor(db.books, room.player2.value, room) {
        var u2 := Wallet.UnlockFromGame(db, room.player2.value, room.stakeAsset, room.stakeAmount, room.id);
        if u2.Fail? {
          return Err(u2.error);
        }
      }
    }
    return Ok(Some((updated, reason)));
  }

  /** A refund leaves the ledger's LOCK entries as they were. */
  lemma RefundKeepsLocks(b: Books, u: UserId, room: Room, v: UserId)
    requires RefundIfLocked(b, u, room).Ok?
    ensures LockedFor(RefundIfLocked(b, u, room).value, v, room) == LockedFor(b, v, room)
  {
    var b' := RefundIfLocked(b, u, room).value;
    if LockedFor(b, u, room) && room.stakeAmount > 0.0 {
      assert b'.ledger == b.ledger + [Txn(u, Unlock, room.stakeAsset, room.stakeAmount, Completed, Game(room.id))];
    }
  }

  /** A cancel that finds no stake of the room locked succeeds, marks the
      room CANCELLED and touches no balance: in particular a room whose start
      failed, or never ran, is cancelled cleanly. */
  lemma CancelGuardedSkipsUnlocked(t: Tables, roomId: RoomId, reason: string)
    requires roomId in t.rooms && t.rooms[roomId].id == roomId
    requires t.rooms[roomId].status == Active || t.rooms[roomId].status == Waiting
    requires !LockedFor(t.books, t.rooms[roomId].player1, t.rooms[roomId])
    requires t.rooms[roomId].player2.Some? ==> !LockedFor(t.books, t.rooms[roomId].player2.value, t.rooms[roomId])
    ensures var room := t.rooms[roomId];
      CancelGuardedEffect(t, roomId, reason)
      == (Ok(Some((room.(status := Cancelled), reason))), t.(rooms := t.rooms[roomId := room.(status := Cancelled)]))
  {
  }

  /** A successful corrected cancel of an ACTIVE room refunds exactly the
      stakes the ledger shows locked for it: such a player's locked balance
      falls by the stake and the available one rises by it; the row of a
      player whose stake was never locked stays as it was, so do the rows of
      everyone else, and the ledger gains one UNLOCK per refunded stake. */
  lemma CancelGuardedRefunds(t: Tables, roomId: RoomId, reason: string, v: UserId)
    requires roomId in t.rooms && RoomWellFormed(t.rooms[roomId]) && t.rooms[roomId].id == roomId
    requires t.rooms[roomId].status == Active
    requires CancelGuardedEffect(t, roomId, reason).0.Ok?
    requires v == t.rooms[roomId].player1 || t.rooms[roomId].player2 == Some(v)
    requires HasAsset(t.books.wallets, v, t.rooms[roomId].stakeAsset)
    ensures var room := t.rooms[roomId];
      var (r, t') := CancelGuardedEffect(t, roomId, reason);
      var a, s, w := room.stakeAsset, room.stakeAmount, t.books.wallets[v][room.stakeAsset];
      && r == Ok(Some((room.(status := Cancelled), reason)))
      && t'.rooms == t.rooms[roomId := room.(status := Cancelled)]
      && HasAsset(t'.books.wallets, v, a)
      && t'.books.wallets[v][a] == (if LockedFor(t.books, v, room) then Balance(w.avail + s, w.locked - s) else w)
      && (forall u, c :: HasAsset(t.books.wallets, u, c) && !(c == a && (u == room.player1 || room.player2 == Some(u)))
            ==> HasAsset(t'.books.wallets, u, c) && t'.books.wallets[u][c] == t.books.wallets[u][c])
      && t'.books.ledger == t.books.ledger + UnlockEntry(t.books, room.player1, room) + UnlockEntry(t.books, room.player2.value, room)
  {
    var room := t.rooms[roomId];
    var p1, p2 := room.player1, room.player2.value;
    var b2 := RefundIfLocked(t.books, p1, room).value;
    RefundKeepsLocks(t.books, p1, room, p2);
  }

  /** On the failed start's tables the corrected cancel succeeds and leaves
      every balance as it was. */
  lemma CancelGuardedOnFailedStart(js: ChessEngine.ChessJs, why: string)
    ensures var room := Room("r", TicTacToe, USDT, 1.0, Active, false, None, "a", Some("b"), None, None);
      var t0 := Tables(Books(map["a" := map[USDT := Balance(0.0, 0.0)], "b" := map[USDT := Balance(5.0, 0.0)]], [], []),
                       map["r" := room], []);
      var t1 := StartGameEffect(t0, js, "r").1;
      var (r, t2) := CancelGuardedEffect(t1, "r", why);
      && r.Ok? && t2.rooms["r"].status == Cancelled && t2.books == t0.books
  {
    var room := Room("r", TicTacToe, USDT, 1.0, Active, false, None, "a", Some("b"), None, None);
    var t0 := Tables(Books(map["a" := map[USDT := Balance(0.0, 0.0)], "b" := map[USDT := Balance(5.0, 0.0)]], [], []),
                     map["r" := room], []);
    assert Wallet.LockEffect(t0.books, "a", USDT, 1.0, "r") == Err("Insufficient balance");
    var t1 := StartGameEffect(t0, js, "r").1;
    CancelGuardedSkipsUnlocked(t1, "r", why);
  }
}
