/** The rows the server keeps in its database, as in-memory maps and sequences,
    and the store object every service updates. */
module Db {
  import opened Common
  import Registry

  /** One `WalletAsset` row: the spendable and the staked amount of one asset. */
  datatype Balance = Balance(avail: real, locked: real)

  /** The wallet of each user and, inside it, the row of each asset it holds. */
  type Wallets = map<UserId, map<Asset, Balance>>

  datatype TxType = Deposit | Withdraw | Lock | Unlock | Payout | Fee | ReferralReward

  datatype TxStatus = Pending | Completed

  /** The `meta` column of a ledger entry. */
  datatype Meta =
    | Supplied(data: Option<Json>)
    | Game(gameId: RoomId)
    | DrawRefund(gameId: RoomId)
    | Referral(gameId: RoomId, fromUser: UserId)

  /** A `Transaction` row: one ledger entry. */
  datatype Txn = Txn(user: UserId, kind: TxType, asset: Asset, amount: real, status: TxStatus, meta: Meta)

  /** A `ReferralReward` row. */
  datatype Reward = Reward(referrer: UserId, user: UserId, amount: real, asset: Asset, gameId: RoomId)

  /** Everything the wallet service writes. */
  datatype Books = Books(wallets: Wallets, ledger: seq<Txn>, rewards: seq<Reward>)

  datatype RoomStatus = Waiting | Active | Ended | Cancelled

  /** A `GameRoom` row. */
  datatype Room = Room(
    id: RoomId,
    gameType: GameType,
    stakeAsset: Asset,
    stakeAmount: real,
    status: RoomStatus,
    isPrivate: bool,
    inviteCode: Option<string>,
    player1: UserId,
    player2: Option<UserId>,
    winner: Option<UserId>,
    gameState: Option<Registry.EngineState>)

  /** A `GameMove` row. */
  datatype MoveRecord = MoveRecord(gameId: RoomId, playerId: UserId, move: Json)

  predicate HasAsset(w: Wallets, u: UserId, a: Asset) {
    u in w && a in w[u]
  }

  /** No balance is negative. */
  predicate NonNegative(w: Wallets) {
    forall u, a :: u in w && a in w[u] ==> w[u][a].avail >= 0.0 && w[u][a].locked >= 0.0
  }

  /** What every room row satisfies: a positive stake; an invite code exactly
      for a private room; two distinct players once the game runs or has ended;
      a game state of the room's game type; a winner only in an ended room, and
      then one of its players. */
  predicate RoomWellFormed(r: Room) {
    && r.stakeAmount > 0.0
    && (r.isPrivate <==> r.inviteCode.Some?)
    && ((r.status == Active || r.status == Ended) ==> r.player2.Some? && r.player2.value != r.player1)
    && (r.gameState.Some? ==> Registry.Matches(r.gameType, r.gameState.value))
    && (r.winner.Some? ==> r.status == Ended && (r.winner.value == r.player1 || r.player2 == r.winner))
  }

  /** The `inviteCode` column is unique. */
  predicate InviteCodesUnique(rooms: map<RoomId, Room>) {
    forall i, j :: i in rooms && j in rooms && rooms[i].inviteCode.Some? && rooms[i].inviteCode == rooms[j].inviteCode ==> i == j
  }

  /** The log of settlements: no room twice, and only ended rooms. */
  predicate SettledOnce(settled: seq<RoomId>, rooms: map<RoomId, Room>) {
    && (forall i, j :: 0 <= i < j < |settled| ==> settled[i] != settled[j])
    && (forall i :: 0 <= i < |settled| ==> settled[i] in rooms && rooms[settled[i]].status == Ended)
  }

  /** Every room row is well formed and stored under its own id, invite codes
      are unique, and every room is settled at most once, and only once ended. */
  predicate RoomTablesValid(rooms: map<RoomId, Room>, settled: seq<RoomId>) {
    && (forall id :: id in rooms ==> rooms[id].id == id && RoomWellFormed(rooms[id]))
    && InviteCodesUnique(rooms)
    && SettledOnce(settled, rooms)
  }

  /** Some room holds the invite code. */
  predicate InviteTaken(rooms: map<RoomId, Room>, code: string) {
    exists id :: id in rooms && rooms[id].inviteCode == Some(code)
  }

  /** A room that has not ended has not been settled. */
  lemma UnendedNotSettled(rooms: map<RoomId, Room>, settled: seq<RoomId>, id: RoomId)
    requires RoomTablesValid(rooms, settled)
    requires id in rooms && rooms[id].status != Ended
    ensures id !in settled
  {
  }

  /** A new well-formed row under a fresh id, with an invite code no other room holds. */
  lemma AddRoomValid(rooms: map<RoomId, Room>, settled: seq<RoomId>, room: Room)
    requires RoomTablesValid(rooms, settled)
    requires room.id !in rooms && RoomWellFormed(room)
    requires room.inviteCode.Some? ==> !InviteTaken(rooms, room.inviteCode.value)
    ensures RoomTablesValid(rooms[room.id := room], settled)
  {
    assert forall i :: i in rooms ==> rooms[i].inviteCode != room.inviteCode || room.inviteCode.None?;
  }

  /** A row rewritten in place, keeping its id and invite code: the tables stay
      valid when the row stays well formed and a settled room stays ended. */
  lemma ReplaceRoomValid(rooms: map<RoomId, Room>, settled: seq<RoomId>, room: Room)
    requires RoomTablesValid(rooms, settled)
    requires room.id in rooms && RoomWellFormed(room)
    requires room.inviteCode == rooms[room.id].inviteCode
    requires rooms[room.id].status == Ended ==> room.status == Ended
    ensures RoomTablesValid(rooms[room.id := room], settled)
  {
  }

  /** Recording the settlement of an ended room that was not settled before. */
  lemma SettleRoomValid(rooms: map<RoomId, Room>, settled: seq<RoomId>, id: RoomId)
    requires RoomTablesValid(rooms, settled)
    requires id in rooms && rooms[id].status == Ended && id !in settled
    ensures RoomTablesValid(rooms, settled + [id])
  {
  }

  class Store {
    var books: Books
    /** `User.referredById`: the referrer of each referred user. */
    var referredBy: map<UserId, UserId>
    var rooms: map<RoomId, Room>
    var moves: seq<MoveRecord>
    /** The rooms settled so far, in order. */
    ghost var settled: seq<RoomId>

    ghost predicate Valid()
      reads this
    {
      NonNegative(books.wallets) && RoomsValid()
    }

    /** The invariants of the room rows, which the wallet service never touches. */
    ghost predicate RoomsValid()
      reads this`rooms, this`settled
    {
      RoomTablesValid(rooms, settled)
    }

    constructor (wallets: Wallets, referredBy: map<UserId, UserId>)
      requires NonNegative(wallets)
      ensures Valid()
      ensures books == Books(wallets, [], []) && this.referredBy == referredBy
      ensures rooms == map[] && moves == [] && settled == []
    {
      books := Books(wallets, [], []);
      this.referredBy := referredBy;
      rooms := map[];
      moves := [];
      settled := [];
    }
  }
}
