/** Creating and joining rooms: the first half of the room lifecycle,
    WAITING until a second player joins and the room turns ACTIVE. */
module Matchmaking {
  import opened Common
  import opened Db
  import JsString

  /** The message of the database's unique-constraint error on `inviteCode`. */
  const UniqueViolation := "Unique constraint failed on the fields: (`inviteCode`)"

  /** `createRoom` on the room rows: the row it inserts, or its error. `id` is
      the id the database assigns; `code` is the value `inviteCode()` drew,
      used only for a private room. A new room waits for an opponent, belongs
      to its creator, has no second player, winner or game state, and carries
      an invite code exactly when it is private. */
  function CreateEffect(rooms: map<RoomId, Room>, id: RoomId, owner: UserId, g: GameType, a: Asset,
                        stake: real, isPrivate: bool, code: string): (r: Result<Room>)
    ensures stake <= 0.0 ==> r == Err("Invalid stake")
    ensures r.Ok? <==> stake > 0.0 && !(isPrivate && InviteTaken(rooms, code))
    ensures stake > 0.0 && isPrivate && InviteTaken(rooms, code) ==> r == Err(UniqueViolation)
    ensures r.Ok? ==>
      && r.value.id == id && r.value.gameType == g && r.value.stakeAsset == a && r.value.stakeAmount == stake
      && r.value.status == Waiting && r.value.player1 == owner && r.value.player2.None?
      && r.value.winner.None? && r.value.gameState.None?
      && r.value.isPrivate == isPrivate
      && (r.value.inviteCode.Some? <==> isPrivate) && (isPrivate ==> r.value.inviteCode == Some(code))
      && RoomWellFormed(r.value)
  {
    if stake <= 0.0 then Err("Invalid stake")
    else
      var invite := if isPrivate then Some(code) else None;
      if invite.Some? && InviteTaken(rooms, invite.value) then Err(UniqueViolation)
      else Ok(Room(id, g, a, stake, Waiting, isPrivate, invite, owner, None, None, None))
  }

  /** `createRoom`: inserts the new row and returns its id and invite code. */
  method CreateRoom(db: Store, id: RoomId, owner: UserId, g: GameType, a: Asset,
                    stake: real, isPrivate: bool, code: string) returns (r: Result<(RoomId, Option<string>)>)
    requires db.Valid() && id !in db.rooms
    modifies db`rooms
    ensures db.Valid()
    ensures match CreateEffect(old(db.rooms), id, owner, g, a, stake, isPrivate, code)
      case Ok(room) => r == Ok((id, room.inviteCode)) && db.rooms == old(db.rooms)[id := room]
      case Err(e) => r == Err(e) && db.rooms == old(db.rooms)
  {
    if stake <= 0.0 {
      return Err("Invalid stake");
    }
    var invite := if isPrivate then Some(code) else None;
    if invite.Some? && InviteTaken(db.rooms, invite.value) {
      return Err(UniqueViolation);
    }
    var room := Room(id, g, a, stake, Waiting, isPrivate, invite, owner, None, None, None);
    AddRoomValid(db.rooms, db.settled, room);
    db.rooms := db.rooms[id := room];
    return Ok((room.id, room.inviteCode));
  }

  /** `joinRoom` on the room rows: the room it returns, or its error, checked in
      this order: an unknown id, a room that no longer waits, the owner coming
      back (who gets the room as it is), a room that already has a second
      player; otherwise the caller becomes player2 and the room turns ACTIVE. */
  function JoinEffect(rooms: map<RoomId, Room>, u: UserId, roomId: RoomId): (r: Result<Room>)
    ensures roomId !in rooms ==> r == Err("Room not found")
    ensures r.Ok? <==> roomId in rooms && rooms[roomId].status == Waiting
                       && (rooms[roomId].player1 == u || rooms[roomId].player2.None?)
    ensures roomId in rooms && rooms[roomId].status != Waiting ==> r == Err("Room not joinable")
    ensures (roomId in rooms && rooms[roomId].status == Waiting && rooms[roomId].player1 != u
             && rooms[roomId].player2.Some?) ==> r == Err("Room is full")
    ensures r.Ok? && rooms[roomId].player1 == u ==> r.value == rooms[roomId]
    ensures r.Ok? && rooms[roomId].player1 != u ==>
      r.value == rooms[roomId].(player2 := Some(u), status := Active)
  {
    if roomId !in rooms then Err("Room not found")
    else
      var room := rooms[roomId];
      if room.status != Waiting then Err("Room not joinable")
      else if room.player1 == u then Ok(room)
      else if room.player2.Some? then Err("Room is full")
      else Ok(room.(player2 := Some(u), status := Active))
  }

  /** `joinRoom`: one transaction that reads the room and writes it back joined. */
  method JoinRoom(db: Store, u: UserId, roomId: RoomId) returns (r: Result<Room>)
    requires db.Valid()
    modifies db`rooms
    ensures db.Valid()
    ensures r == JoinEffect(old(db.rooms), u, roomId)
    ensures db.rooms == if r.Ok? then old(db.rooms)[roomId := r.value] else old(db.rooms)
  {
    if roomId !in db.rooms {
      return Err("Room not found");
    }
    var room := db.rooms[roomId];
    if room.status != Waiting {
      return Err("Room not joinable");
    }
    if room.player1 == u {
      assert db.rooms[roomId := room] == db.rooms;
      return Ok(room);
    }
    if room.player2.Some? {
      return Err("Room is full");
    }
    var joined := room.(player2 := Some(u), status := Active);
    JoinValid(db.rooms, db.settled, u, roomId);
    db.rooms := db.rooms[roomId := joined];
    return Ok(joined);
  }

  /** A join keeps the room tables valid: the joiner differs from the owner of
      the room it activates, and a waiting room was never settled. */
  lemma JoinValid(rooms: map<RoomId, Room>, settled: seq<RoomId>, u: UserId, roomId: RoomId)
    requires RoomTablesValid(rooms, settled)
    requires JoinEffect(rooms, u, roomId).Ok?
    ensures RoomTablesValid(rooms[roomId := JoinEffect(rooms, u, roomId).value], settled)
  {
    ReplaceRoomValid(rooms, settled, JoinEffect(rooms, u, roomId).value);
  }

  /** A room is joined once: after a second player has joined, every further
      join, by anyone, is refused as not joinable. */
  lemma JoinOnce(rooms: map<RoomId, Room>, u: UserId, v: UserId, roomId: RoomId)
    requires JoinEffect(rooms, u, roomId).Ok? && rooms[roomId].player1 != u
    ensures JoinEffect(rooms[roomId := JoinEffect(rooms, u, roomId).value], v, roomId) == Err("Room not joinable")
  {
  }

  /** The owner joining its own waiting room changes no row. */
  lemma OwnerJoinChangesNothing(rooms: map<RoomId, Room>, roomId: RoomId)
    requires roomId in rooms && rooms[roomId].status == Waiting
    ensures JoinEffect(rooms, rooms[roomId].player1, roomId) == Ok(rooms[roomId])
    ensures rooms[roomId := JoinEffect(rooms, rooms[roomId].player1, roomId).value] == rooms
  {
  }

  /** `code.trim().toUpperCase()`. */
  function Normalize(code: string): string {
    JsString.ToUpper(JsString.Trim(code))
  }

  /** Upper-casing keeps a character that is not white space away from white space. */
  lemma UpperNotSpace(c: char)
    requires !JsString.IsSpace(c)
    ensures !JsString.IsSpace(JsString.UpperChar(c))
  {
  }

  /** A normalised code is its own normal form: entering the code exactly as
      it is stored finds the same room as any padded or lower-case spelling. */
  lemma NormalizeIdempotent(code: string)
    ensures Normalize(Normalize(code)) == Normalize(code)
  {
    var t := JsString.Trim(code);
    var n := JsString.ToUpper(t);
    if t != [] {
      UpperNotSpace(t[0]);
      UpperNotSpace(t[|t| - 1]);
    }
    JsString.TrimIdentity(n);
    JsString.ToUpperIdempotent(t);
  }

  /** `findUnique({ where: { inviteCode } })`: the room holding the code. */
  ghost function RoomWithInvite(rooms: map<RoomId, Room>, code: string): (r: Option<RoomId>)
    ensures r.Some? <==> InviteTaken(rooms, code)
    ensures r.Some? ==> r.value in rooms && rooms[r.value].inviteCode == Some(code)
  {
    if InviteTaken(rooms, code) then
      Some(var id :| id in rooms && rooms[id].inviteCode == Some(code); id)
    else None
  }

  /** Under unique invite codes the room holding a code is the only one. */
  lemma RoomWithInviteIs(rooms: map<RoomId, Room>, code: string, id: RoomId)
    requires InviteCodesUnique(rooms)
    requires id in rooms && rooms[id].inviteCode == Some(code)
    ensures RoomWithInvite(rooms, code) == Some(id)
  {
  }

  /** `joinRoomByInvite` on the room rows: the code is trimmed and upper-cased;
      an empty code and a code no room holds are refused; otherwise it is
      `joinRoom` on the room holding the code. */
  ghost function JoinByInviteEffect(rooms: map<RoomId, Room>, u: UserId, code: string): (r: Result<Room>)
    ensures Normalize(code) == [] ==> r == Err("Missing invite code")
    ensures Normalize(code) != [] && !InviteTaken(rooms, Normalize(code)) ==> r == Err("Invite not found")
  {
    var c := Normalize(code);
    if c == [] then Err("Missing invite code")
    else match RoomWithInvite(rooms, c)
      case None => Err("Invite not found")
      case Some(id) => JoinEffect(rooms, u, id)
  }

  /** A non-empty normalised code held by a room joins exactly that room, as
      `joinRoom` would. */
  lemma ByInviteIsJoin(rooms: map<RoomId, Room>, u: UserId, code: string, id: RoomId)
    requires InviteCodesUnique(rooms)
    requires Normalize(code) != [] && id in rooms && rooms[id].inviteCode == Some(Normalize(code))
    ensures JoinByInviteEffect(rooms, u, code) == JoinEffect(rooms, u, id)
  {
    RoomWithInviteIs(rooms, Normalize(code), id);
  }

  /** `joinRoomByInvite`: the lookup, then `joinRoom`. */
  method JoinRoomByInvite(db: Store, u: UserId, code: string) returns (r: Result<Room>)
    requires db.Valid()
    modifies db`rooms
    ensures db.Valid()
    ensures r == JoinByInviteEffect(old(db.rooms), u, code)
    ensures db.rooms == if r.Ok? then old(db.rooms)[r.value.id := r.value] else old(db.rooms)
  {
    var c := JsString.ToUpper(JsString.Trim(code));
    if c == [] {
      return Err("Missing invite code");
    }
    if !InviteTaken(db.rooms, c) {
      return Err("Invite not found");
    }
    var id :| id in db.rooms && db.rooms[id].inviteCode == Some(c);
    ByInviteIsJoin(db.rooms, u, code, id);
    r := JoinRoom(db, u, id);
  }

  /** The round trip of a private room: after the creator is given the code,
      anyone else entering it (in any case, with any padding) becomes the
      room's second player, and the creator entering it gets the room back. */
  lemma CreateThenJoinByInvite(rooms: map<RoomId, Room>, settled: seq<RoomId>, id: RoomId, owner: UserId,
                               g: GameType, a: Asset, stake: real, code: string, u: UserId, entered: string)
    requires RoomTablesValid(rooms, settled) && id !in rooms
    requires CreateEffect(rooms, id, owner, g, a, stake, true, code).Ok?
    requires code != [] && Normalize(entered) == code
    ensures var room := CreateEffect(rooms, id, owner, g, a, stake, true, code).value;
      var r := JoinByInviteEffect(rooms[id := room], u, entered);
      && (u == owner ==> r == Ok(room))
      && (u != owner ==> r == Ok(room.(player2 := Some(u), status := Active)))
  {
    var room := CreateEffect(rooms, id, owner, g, a, stake, true, code).value;
    AddRoomValid(rooms, settled, room);
    ByInviteIsJoin(rooms[id := room], u, entered, id);
  }
}
