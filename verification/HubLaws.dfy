/**
 Exactly when each request takes effect, what it does to whom it is for, and that it does nothing to
 anyone else; written on the sessions and rooms.
 */
module HubLaws {
  import opened Collections
  import opened HubModel
  import opened HubInvariants
  import opened HubSteps
  import opened HubRuns

  // ---- Seats -----------------------------------------------------------------------------

  /** A session but for what it was told. */
  function Seat(s: Session): Session {
    s.(audienceSeq := 0, told := [])
  }

  function SeatOf(h: Hub, u: UserId): Option<Session> {
    if u in h.sessions then Some(Seat(h.sessions[u])) else None
  }

  /** All that rebuilding and telling leave alone. */
  ghost predicate SameSeats(h: Hub, t: Hub) {
    && (forall v :: SeatOf(t, v) == SeatOf(h, v))
    && t.rooms == h.rooms && t.nextConn == h.nextConn && t.nextRoom == h.nextRoom && t.nextMedia == h.nextMedia
    && t.storedEpochs == h.storedEpochs
  }

  lemma RebuildSeats(h: Hub)
    ensures SameSeats(h, Rebuild(h))
  {
    hide ChangedRooms, AudiencesIn, TableOf, AllAudiences;
    forall v ensures SeatOf(Rebuild(h), v) == SeatOf(h, v) {
    }
  }

  lemma PlacementSeats(h: Hub, u: UserId)
    ensures SameSeats(h, PlacementOf(h, u).0)
  {
    forall v ensures SeatOf(PlacementOf(h, u).0, v) == SeatOf(h, v) {
    }
  }

  lemma SeatsTwice(h: Hub, t: Hub, w: Hub)
    requires SameSeats(h, t) && SameSeats(t, w)
    ensures SameSeats(h, w)
  {
  }

  /** Nobody but, perhaps, `u` is moved, muted, signed out or otherwise changed. */
  ghost predicate OnlyConcerns(h: Hub, t: Hub, u: UserId) {
    forall v :: v != u ==> SeatOf(t, v) == SeatOf(h, v)
  }

  // ---- Moving ----------------------------------------------------------------------------

  /** Whether a move of `u` into or out of rooms goes through. */
  ghost predicate MayMove(h: Hub, u: UserId, target: Option<RoomId>, hasKey: bool, luck: Luck)
    requires u in h.sessions
  {
    && (target.Some? ==> target.value in h.rooms && |h.rooms[target.value].members| < 30 && hasKey
                         && luck.mediaWrites && h.nextMedia + 2 <= 0xFFFF_FFFF)
    && luck.epochsWrite
    && (forall r :: target == Some(r) || h.sessions[u].room == Some(r) ==> r in h.rooms && h.rooms[r].epoch < 0xFFFF_FFFF)
  }

  /** The user sits in the target room, on three new tracks, sharing and watching nothing; its members
      gained them and those of the room before lost them, and just these rooms are an epoch on. */
  ghost predicate IsMoved(h: Hub, t: Hub, u: UserId, target: Option<RoomId>)
    requires u in h.sessions
  {
    var tracks := if target.Some? then Some(Tracks(h.nextMedia, h.nextMedia + 1, h.nextMedia + 2)) else None;
    && SeatOf(t, u) == Some(Seat(h.sessions[u]).(room := target, tracks := tracks, share := None, watching := []))
    && t.nextMedia == h.nextMedia + (if target.Some? then 3 else 0)
    && t.rooms.Keys == h.rooms.Keys
    && forall r :: r in h.rooms ==>
         var moves := target == Some(r) || h.sessions[u].room == Some(r);
         && t.rooms[r].epoch == h.rooms[r].epoch + (if moves then 1 else 0)
         && forall v :: v in t.rooms[r].members <==> if v == u then target == Some(r) else v in h.rooms[r].members
  }

  lemma MovedIs(h: Hub, u: UserId, target: Option<RoomId>, rooms: set<RoomId>)
    requires InStep(h.sessions, h.rooms) && u in h.sessions && h.sessions[u].room != target
    requires rooms == OneRoom(h.sessions[u].room) + OneRoom(target)
    ensures var tracks := if target.Some? then Some(Tracks(h.nextMedia, h.nextMedia + 1, h.nextMedia + 2)) else None;
      var t := Move(Bump(h.(nextMedia := h.nextMedia + (if target.Some? then 3 else 0)), rooms), u, target, tracks);
      IsMoved(h, t, u, target) && OnlyConcerns(h, t, u)
  {
    hide Move, SessionFits;
    var tracks := if target.Some? then Some(Tracks(h.nextMedia, h.nextMedia + 1, h.nextMedia + 2)) else None;
    var reserved := h.(nextMedia := h.nextMedia + (if target.Some? then 3 else 0));
    var bumped := Bump(reserved, rooms);
    var t := Move(bumped, u, target, tracks);
    BumpStands(reserved, rooms);
    MoveTouches(bumped, u, target, tracks);
    forall r
      ensures r in t.rooms <==> r in h.rooms
      ensures r in h.rooms ==>
        t.rooms[r].epoch == h.rooms[r].epoch + (if target == Some(r) || h.sessions[u].room == Some(r) then 1 else 0)
      ensures r in h.rooms ==>
        forall v :: v in t.rooms[r].members <==> if v == u then target == Some(r) else v in h.rooms[r].members
    {
      BumpedInStep(reserved, rooms);
      MovedMembers(bumped, u, target, tracks, r);
    }
    SameSet(t.rooms.Keys, h.rooms.Keys);
  }

  lemma BumpedInStep(h: Hub, rooms: set<RoomId>)
    requires InStep(h.sessions, h.rooms)
    ensures InStep(Bump(h, rooms).sessions, Bump(h, rooms).rooms)
  {
    var t := Bump(h, rooms);
    forall v | v in t.sessions ensures SessionFits(t.sessions, t.rooms, v) {
      assert SessionFits(h.sessions, h.rooms, v);
    }
  }

  lemma MayMoveIs(h: Hub, u: UserId, target: Option<RoomId>, hasKey: bool, luck: Luck)
    requires u in h.sessions
    ensures var reserved := if target.Some? then h.(nextMedia := h.nextMedia + TRACKS_PER_MEMBERSHIP) else h;
      MayMove(h, u, target, hasKey, luck) <==>
        && !(target.Some? && (target.value !in h.rooms || |h.rooms[target.value].members| >= MAX_ROOM_MEMBERS || !hasKey))
        && !(target.Some? && Reserve(h, luck).None?)
        && CanBump(reserved, OneRoom(h.sessions[u].room) + OneRoom(target), luck)
  {
    var rooms := OneRoom(h.sessions[u].room) + OneRoom(target);
    forall r ensures r in rooms <==> target == Some(r) || h.sessions[u].room == Some(r) {
    }
  }

  lemma SameSessions(h: Hub, t: Hub, u: UserId)
    requires t.sessions == h.sessions
    ensures OnlyConcerns(h, t, u)
  {
  }

  /** A move goes through exactly if the user is signed in and there already, or if the target is a
      room that isn't full, whose password they have, and the database takes its writes. Then it does
      all it should; refused, it does nothing but use up media ids; and either way nobody else is
      touched. */
  lemma MovesExactly(h: Hub, u: UserId, target: Option<RoomId>, hasKey: bool, luck: Luck)
    requires HubInv(h)
    ensures var (t, outcome) := Place(h, u, target, hasKey, luck);
      && OnlyConcerns(h, t, u)
      && (outcome.Done? <==> u in h.sessions && (h.sessions[u].room == target || MayMove(h, u, target, hasKey, luck)))
      && (outcome.Done? && h.sessions[u].room == target ==> SameSeats(h, t))
      && (outcome.Done? && h.sessions[u].room != target ==> IsMoved(h, t, u, target))
      && (outcome.Refused? ==> t == h || t == h.(nextMedia := h.nextMedia + 3))
  {
    hide Rebuild, PlacementOf, Move, Bump, Fresh, AllKnow, IdsApart, AllNumbered, ConnsDiffer, IsStored, SeatOf, CanBump, Reserve, MayMove;
    SameSessions(h, h.(nextMedia := h.nextMedia + 3), u);
    if u in h.sessions {
      PlacementSeats(h, u);
      if h.sessions[u].room != target {
        MayMoveIs(h, u, target, hasKey, luck);
        if MayMove(h, u, target, hasKey, luck) {
          MoveSeats(h, u, target, hasKey, luck);
        }
      }
    }
  }

  lemma MoveSeats(h: Hub, u: UserId, target: Option<RoomId>, hasKey: bool, luck: Luck)
    requires InStep(h.sessions, h.rooms) && u in h.sessions && h.sessions[u].room != target && MayMove(h, u, target, hasKey, luck)
    ensures var (t, outcome) := Place(h, u, target, hasKey, luck);
      outcome.Done? && IsMoved(h, t, u, target) && OnlyConcerns(h, t, u)
  {
    hide Rebuild, PlacementOf, Move, Bump, CanBump, SeatOf;
    MayMoveIs(h, u, target, hasKey, luck);
    var rooms := OneRoom(h.sessions[u].room) + OneRoom(target);
    var tracks := if target.Some? then Some(Tracks(h.nextMedia, h.nextMedia + 1, h.nextMedia + 2)) else None;
    var reserved := h.(nextMedia := h.nextMedia + (if target.Some? then 3 else 0));
    var moved := Move(Bump(reserved, rooms), u, target, tracks);
    MovedIs(h, u, target, rooms);
    RebuildSeats(moved);
    PlacementSeats(Rebuild(moved), u);
    SeatsTwice(moved, Rebuild(moved), PlacementOf(Rebuild(moved), u).0);
  }

  /** What a move answers: where the user is now, at the room's epoch of now, with their tracks, and with
      what their connection was told last. */
  lemma PlacementsTell(h: Hub, u: UserId, target: Option<RoomId>, hasKey: bool, luck: Luck)
    requires HubInv(h) && Place(h, u, target, hasKey, luck).1.Done?
    ensures var (t, outcome) := Place(h, u, target, hasKey, luck);
      && u in t.sessions && t.sessions[u].room == target
      && (target.None? ==> outcome.value == Lobby)
      && (target.Some? ==>
            && target.value in t.rooms && t.sessions[u].told != []
            && outcome.value == InRoom(target.value, t.rooms[target.value].epoch, t.sessions[u].tracks,
                                       t.sessions[u].told[|t.sessions[u].told| - 1]))
  {
    hide HubInv, Rebuild, Move, Bump, CanBump, Reserve, SeatOf, MayMove, OnlyConcerns;
    var t := Place(h, u, target, hasKey, luck).0;
    MovesExactly(h, u, target, hasKey, luck);
    assert SeatOf(t, u).Some? && SeatOf(t, u).value.room == target by {
      MovedHere(h, t, u, target);
    }
    PlaceKeeps(h, u, target, hasKey, luck);
    RoomsExist(t, u);
    SeatIs(t, u);
    if h.sessions[u].room == target {
      TellsNow(h, u);
    } else {
      MayMoveIs(h, u, target, hasKey, luck);
      var tracks := if target.Some? then Reserve(h, luck) else None;
      var reserved := if target.Some? then h.(nextMedia := h.nextMedia + TRACKS_PER_MEMBERSHIP) else h;
      TellsNow(Rebuild(Move(Bump(reserved, OneRoom(h.sessions[u].room) + OneRoom(target)), u, target, tracks)), u);
    }
  }

  lemma MovedHere(h: Hub, t: Hub, u: UserId, target: Option<RoomId>)
    requires u in h.sessions
    requires (h.sessions[u].room == target && SameSeats(h, t)) || IsMoved(h, t, u, target)
    ensures SeatOf(t, u).Some? && SeatOf(t, u).value.room == target
  {
    assert h.sessions[u].room == target && SameSeats(h, t) ==> SeatOf(t, u) == SeatOf(h, u);
  }

  lemma SeatIs(h: Hub, u: UserId)
    ensures SeatOf(h, u).Some? <==> u in h.sessions
    ensures u in h.sessions ==> SeatOf(h, u).value.room == h.sessions[u].room
  {
  }

  lemma RoomsExist(h: Hub, u: UserId)
    requires HubInv(h)
    ensures u in h.sessions && h.sessions[u].room.Some? ==> h.sessions[u].room.value in h.rooms
  {
    hide Fresh, AllKnow, IdsApart, AllNumbered, ConnsDiffer, IsStored, WithinCaps;
    if u in h.sessions {
      assert SessionFits(h.sessions, h.rooms, u);
    }
  }

  lemma TellsNow(h: Hub, u: UserId)
    ensures var (t, placement) := PlacementOf(h, u);
      && (u !in h.sessions || h.sessions[u].room.None? ==> placement == Lobby)
      && (u in h.sessions && h.sessions[u].room.Some? ==>
            var r := h.sessions[u].room.value;
            && u in t.sessions && t.sessions[u].told != []
            && (r in t.rooms ==> placement == InRoom(r, t.rooms[r].epoch, t.sessions[u].tracks,
                                                     t.sessions[u].told[|t.sessions[u].told| - 1])))
  {
  }

  /** Rebuilding tells a member the list of their room exactly if it isn't the one they were told last. */
  lemma ChangesAreTold(h: Hub, u: UserId)
    requires InStep(h.sessions, h.rooms) && AllKnow(h) && u in h.sessions && h.sessions[u].room.Some?
    ensures var told, now := h.sessions[u].told, AudiencesIn(h.sessions, h.rooms, h.sessions[u].room.value);
      && told != [] && u in Rebuild(h).sessions
      && Rebuild(h).sessions[u].told ==
           if told[|told| - 1].shares == now then told else told + [Audiences(h.sessions[u].audienceSeq + 1, now)]
  {
    hide AudiencesIn, TableOf, AllAudiences;
    assert SessionFits(h.sessions, h.rooms, u) && KnowsLast(h.sessions[u], h.audiences);
  }

  /** The user sits in no room, and has left the members of theirs, whose epoch is one on if `moves`. */
  ghost predicate IsOut(h: Hub, t: Hub, u: UserId, moves: bool)
    requires u in h.sessions
  {
    && SeatOf(t, u) == Some(Seat(h.sessions[u]).(room := None, tracks := None, share := None, watching := []))
    && t.rooms.Keys == h.rooms.Keys
    && forall r :: r in h.rooms ==>
         && t.rooms[r].epoch == h.rooms[r].epoch + (if moves && h.sessions[u].room == Some(r) then 1 else 0)
         && forall v :: v in t.rooms[r].members <==> v != u && v in h.rooms[r].members
  }

  /** Leaving always succeeds. Only the room's epoch stays where a move is refused. */
  lemma LeavesExactly(h: Hub, u: UserId, luck: Luck)
    requires HubInv(h)
    ensures var t := LeaveRoom(h, u, luck);
      && OnlyConcerns(h, t, u)
      && (u !in h.sessions || h.sessions[u].room.None? ==> SameSeats(h, t))
      && (u in h.sessions && h.sessions[u].room.Some? ==>
            IsOut(h, t, u, MayMove(h, u, None, false, luck)) && t.nextMedia == h.nextMedia && t.nextConn == h.nextConn)
  {
    hide Place, Rebuild, Move, Fresh, AllKnow, IdsApart, AllNumbered, ConnsDiffer, IsStored, SeatOf;
    if u in h.sessions {
      MovesExactly(h, u, None, false, luck);
      RefusedIntoLobby(h, u, luck);
      PlacedConns(h, u, luck);
      if Place(h, u, None, false, luck).1.Refused? && h.sessions[u].room.Some? {
        ForcedSeats(h, u);
      }
    }
  }

  lemma PlacedConns(h: Hub, u: UserId, luck: Luck)
    ensures Place(h, u, None, false, luck).0.nextConn == h.nextConn
  {
    hide Rebuild, Move, Bump;
    PlaceStands(h, u, None, false, luck);
  }

  lemma RefusedIntoLobby(h: Hub, u: UserId, luck: Luck)
    requires u in h.sessions
    ensures Place(h, u, None, false, luck).1.Refused? ==> Place(h, u, None, false, luck).0 == h
  {
  }

  lemma ForcedSeats(h: Hub, u: UserId)
    requires InStep(h.sessions, h.rooms) && u in h.sessions && h.sessions[u].room.Some?
    ensures var t := Rebuild(Move(h, u, None, None));
      IsOut(h, t, u, false) && OnlyConcerns(h, t, u) && t.nextMedia == h.nextMedia && t.nextConn == h.nextConn
  {
    hide Rebuild, Move;
    var moved := Move(h, u, None, None);
    MoveTouches(h, u, None, None);
    RebuildSeats(moved);
    forall r
      ensures r in moved.rooms <==> r in h.rooms
      ensures r in h.rooms ==> moved.rooms[r].epoch == h.rooms[r].epoch
      ensures r in h.rooms ==> forall v :: v in moved.rooms[r].members <==> v != u && v in h.rooms[r].members
    {
      MovedMembers(h, u, None, None, r);
    }
    SameSet(moved.rooms.Keys, h.rooms.Keys);
    assert SeatOf(moved, u) == Some(Seat(h.sessions[u]).(room := None, tracks := None, share := None, watching := []));
  }

  // ---- Signing in and out ----------------------------------------------------------------

  /** Signing out takes the user out of their room and out of the sessions, and nobody else. */
  lemma SignsOutExactly(h: Hub, u: UserId, luck: Luck)
    requires HubInv(h)
    ensures var t := Evict(h, u, luck);
      && u !in t.sessions && OnlyConcerns(h, t, u) && t.nextConn == h.nextConn
      && t.rooms.Keys == h.rooms.Keys
      && forall r, v :: r in h.rooms ==> (v in t.rooms[r].members <==> v != u && v in h.rooms[r].members)
  {
    hide LeaveRoom, Fresh, AllKnow, IdsApart, AllNumbered, ConnsDiffer, IsStored, WithinCaps;
    LeavesExactly(h, u, luck);
    EvictCounts(h, u, luck);
    if u !in h.sessions || h.sessions[u].room.None? {
      InNoRoom(h, u);
    }
  }

  lemma InNoRoom(h: Hub, u: UserId)
    requires InStep(h.sessions, h.rooms) && (u !in h.sessions || h.sessions[u].room.None?)
    ensures forall r :: r in h.rooms ==> u !in h.rooms[r].members
  {
    forall r | r in h.rooms ensures u !in h.rooms[r].members {
      assert u in h.rooms[r].members ==> RoomOf(h.sessions, u) == Some(r);
    }
  }

  /** A connection signs out only its own user, and only while it is the current one. */
  lemma HangsUpExactly(h: Hub, u: UserId, conn: ConnId, luck: Luck)
    requires HubInv(h)
    ensures var t := Disconnect(h, u, conn, luck);
      && OnlyConcerns(h, t, u)
      && (u in t.sessions <==> u in h.sessions && h.sessions[u].conn != conn)
      && (u in t.sessions ==> t == h)
  {
    hide Evict, Fresh, AllKnow, IdsApart, AllNumbered, ConnsDiffer, IsStored, WithinCaps;
    SignsOutExactly(h, u, luck);
    SameSessions(h, h, u);
  }

  /** A session that just began, on this connection. */
  ghost predicate IsFresh(h: Hub, u: UserId, conn: ConnId, key: Option<EncryptionKey>) {
    SeatOf(h, u) == Some(Session(conn, None, None, key, false, None, [], 0, []))
  }

  lemma SignedInIs(h: Hub, u: UserId, key: Option<EncryptionKey>, luck: Luck)
    requires HubInv(h)
    ensures var t := SignIn(h, u, key, luck);
      u in t.sessions && IsFresh(t, u, h.nextConn + 1, key) && t.nextConn == h.nextConn + 1 && OnlyConcerns(h, t, u)
  {
    hide Evict, HubInv;
    SignsOutExactly(h, u, luck);
  }

  /** A user who isn't signed in is turned away exactly while 250 are, or 260 for an admin. Anyone else
      gets a new connection and a fresh session, in the room they return to if they may enter it then,
      and otherwise in none. */
  lemma SignsInExactly(h: Hub, u: UserId, admin: bool, key: Option<EncryptionKey>, rejoin: Option<RoomId>, hasKey: bool,
                       luck: Luck, again: Luck)
    requires HubInv(h)
    ensures var (t, outcome) := Connect(h, u, admin, key, rejoin, hasKey, luck, again);
      var signedIn := SignIn(h, u, key, luck);
      && OnlyConcerns(h, t, u)
      && (outcome.Refused? <==> u !in h.sessions && |h.sessions| >= if admin then 260 else 250)
      && (outcome.Refused? ==> t == h)
      && (outcome.Done? ==>
            && u in signedIn.sessions && IsFresh(signedIn, u, h.nextConn + 1, key) && t.nextConn == h.nextConn + 1
            && if rejoin.Some? && MayMove(signedIn, u, rejoin, hasKey, again)
               then IsMoved(signedIn, t, u, rejoin) else IsFresh(t, u, h.nextConn + 1, key))
  {
    hide Place, SignIn, HubInv, MayMove, IsMoved, SeatOf;
    SameSessions(h, h, u);
    if !(IsFull(h, admin) && u !in h.sessions) {
      var signedIn := SignIn(h, u, key, luck);
      SignedInIs(h, u, key, luck);
      SignInKeeps(h, u, admin, key, luck);
      if rejoin.Some? {
        ReturnsExactly(signedIn, u, rejoin, hasKey, again, h.nextConn + 1, key);
      }
    }
  }

  lemma ReturnsExactly(h: Hub, u: UserId, rejoin: Option<RoomId>, hasKey: bool, luck: Luck, conn: ConnId, key: Option<EncryptionKey>)
    requires HubInv(h) && u in h.sessions && IsFresh(h, u, conn, key) && rejoin.Some?
    ensures var t := Place(h, u, rejoin, hasKey, luck).0;
      && OnlyConcerns(h, t, u) && t.nextConn == h.nextConn
      && if MayMove(h, u, rejoin, hasKey, luck) then IsMoved(h, t, u, rejoin) else IsFresh(t, u, conn, key)
  {
    hide Place, HubInv, MayMove, IsMoved;
    MovesExactly(h, u, rejoin, hasKey, luck);
    PlaceStands(h, u, rejoin, hasKey, luck);
  }

  // ---- Settings --------------------------------------------------------------------------

  /** The members of a room who share their screens. */
  ghost function SharersIn(h: Hub, room: RoomId): set<UserId> {
    set m | m in h.sessions && h.sessions[m].room == Some(room) && h.sessions[m].share.Some?
  }

  lemma SharersAre(h: Hub, room: RoomId)
    requires InStep(h.sessions, h.rooms)
    ensures |SharersIn(h, room)| == SharesIn(h, room)
  {
    var members := MembersOf(h.rooms, room);
    forall m ensures m in SharersIn(h, room) <==> m in Sharing(h.sessions, members) {
      if m in h.sessions {
        assert SessionFits(h.sessions, h.rooms, m);
      }
      assert m in members ==> RoomOf(h.sessions, m) == Some(room);
    }
    SameSet(SharersIn(h, room), Sharing(h.sessions, members));
  }

  ghost predicate OnlySeat(h: Hub, t: Hub, u: UserId, s: Session) {
    && u in h.sessions && SeatOf(t, u) == Some(s) && OnlyConcerns(h, t, u)
    && t.rooms == h.rooms && t.nextMedia == h.nextMedia && t.nextConn == h.nextConn
  }

  lemma SeatSet(h: Hub, u: UserId, s: Session)
    requires u in h.sessions
    ensures var t := h.(sessions := h.sessions[u := s]); OnlySeat(h, t, u, Seat(s)) && OnlySeat(h, Rebuild(t), u, Seat(s))
  {
    hide Rebuild;
    RebuildSeats(h.(sessions := h.sessions[u := s]));
  }

  /** Media settings of a member always set whether they are deafened. How they share applies unless
      it starts a sixth share of the room, or changes to one that isn't allowed. */
  lemma MediaIsSetExactly(h: Hub, u: UserId, deafened: bool, share: Option<int>, allowed: bool)
    requires HubInv(h)
    ensures var (t, outcome) := SetMedia(h, u, deafened, share, allowed);
      if u !in h.sessions || h.sessions[u].room.None? then t == h && outcome.Refused? else
      var s := h.sessions[u];
      var refused := share.Some? && ((s.share.None? && |SharersIn(h, s.room.value)| >= 5) || (share != s.share && !allowed));
      && outcome.Refused? == refused
      && OnlySeat(h, t, u, Seat(s).(deafened := deafened, share := if refused then s.share else share))
  {
    hide Rebuild, Fresh, AllKnow, IdsApart, AllNumbered, ConnsDiffer, IsStored, WithinCaps, SharesIn, OnlySeat, SharersIn;
    if RoomOf(h.sessions, u).Some? {
      var s := h.sessions[u];
      SharersAre(h, s.room.value);
      SeatSet(h, u, s.(deafened := deafened, share := if RefusesShare(h, u, share, allowed) then s.share else share));
    }
  }

  /** The picture or the sound of someone else's share in the room of `u`. */
  ghost predicate IsWatchable(h: Hub, u: UserId, id: MediaId)
    requires u in h.sessions
  {
    exists owner :: owner in h.sessions && owner != u && h.sessions[owner].room == h.sessions[u].room && h.sessions[owner].tracks.Some?
      && (id == h.sessions[owner].tracks.value.video || id == h.sessions[owner].tracks.value.audio)
  }

  lemma MayWatchIs(h: Hub, u: UserId, id: MediaId)
    requires IdsApart(h.sessions, h.nextMedia) && u in h.sessions && h.sessions[u].room.Some?
    ensures MayWatch(h, u, h.sessions[u].room.value, id) <==> IsWatchable(h, u, id)
  {
    forall a, b | a in Sharers(h, id) && b in Sharers(h, id) ensures a == b {
      assert FromOne(h.sessions[a].tracks.value) && FromOne(h.sessions[b].tracks.value);
      assert a != b ==> Apart(h.sessions[a].tracks.value, h.sessions[b].tracks.value);
    }
    if Sharers(h, id) != {} {
      var owner: int := Pick(Sharers(h, id));
      assert owner in h.sessions && IsShareOf(h, owner, id);
    }
    if IsWatchable(h, u, id) {
      var owner :| owner in h.sessions && owner != u && h.sessions[owner].room == h.sessions[u].room && h.sessions[owner].tracks.Some?
        && (id == h.sessions[owner].tracks.value.video || id == h.sessions[owner].tracks.value.audio);
      assert owner in Sharers(h, id);
    }
  }

  /** What a member watches is set exactly if it is at most ten ids, each of a share of someone else in
      their room. */
  lemma WatchingIsSetExactly(h: Hub, u: UserId, ids: seq<MediaId>)
    requires HubInv(h)
    ensures var (t, outcome) := SetWatched(h, u, ids);
      && (outcome.Done? <==> u in h.sessions && h.sessions[u].room.Some? && |ids| <= 10
                             && forall i :: 0 <= i < |ids| ==> IsWatchable(h, u, ids[i]))
      && (if outcome.Done? then OnlySeat(h, t, u, Seat(h.sessions[u]).(watching := ids)) else t == h)
  {
    hide Rebuild, Fresh, AllKnow, InStep, AllNumbered, ConnsDiffer, IsStored, WithinCaps, MayWatch, IsWatchable, OnlySeat;
    if RoomOf(h.sessions, u).Some? {
      forall i | 0 <= i < |ids| ensures MayWatch(h, u, h.sessions[u].room.value, ids[i]) <==> IsWatchable(h, u, ids[i]) {
        MayWatchIs(h, u, ids[i]);
      }
      SeatSet(h, u, h.sessions[u].(watching := ids));
    }
  }

  /** An encryption key is stored if it is allowed, or the one stored. A new key of a member moves the
      room to its next epoch, if that can be; if not, the key stays all the same, and the request fails. */
  lemma KeysAreSetExactly(h: Hub, u: UserId, key: EncryptionKey, allowed: bool, luck: Luck)
    requires HubInv(h)
    ensures var (t, outcome) := SetEncryptionKey(h, u, key, allowed, luck);
      if u !in h.sessions then t == h && outcome.Refused?
      else if h.sessions[u].encryptionKey == Some(key) then t == h && outcome.Done?
      else if !allowed then t == h && outcome.Refused?
      else
        var s := h.sessions[u];
        var moves := s.room.Some? && (s.encryptionKey.None? || s.encryptionKey.value.key != key.key);
        var can := luck.epochsWrite && (s.room.Some? ==> h.rooms[s.room.value].epoch < 0xFFFF_FFFF);
        && outcome.Done? == (moves ==> can)
        && SeatOf(t, u) == Some(Seat(s).(encryptionKey := Some(key))) && OnlyConcerns(h, t, u)
        && t.rooms.Keys == h.rooms.Keys
        && forall r :: r in h.rooms ==>
             t.rooms[r] == h.rooms[r].(epoch := h.rooms[r].epoch + if moves && can && s.room == Some(r) then 1 else 0)
  {
    hide Fresh, AllKnow, IdsApart, AllNumbered, ConnsDiffer, IsStored, WithinCaps;
    if u in h.sessions {
      assert SessionFits(h.sessions, h.rooms, u);
      SeatSet(h, u, h.sessions[u].(encryptionKey := Some(key)));
      SameSet(SetEncryptionKey(h, u, key, allowed, luck).0.rooms.Keys, h.rooms.Keys);
    }
  }

  /** A member may publish wrapped secrets exactly if they are of the room's epoch, each for someone else
      who is in the room, nobody twice, and none longer than 256 bytes. */
  lemma PublishesExactly(h: Hub, u: UserId, epoch: int, wrapped: seq<(UserId, nat)>)
    requires HubInv(h)
    ensures MayPublish(h, u, epoch, wrapped) <==>
      && u in h.sessions && h.sessions[u].room.Some?
      && h.sessions[u].room.value in h.rooms && epoch == h.rooms[h.sessions[u].room.value].epoch
      && (forall i :: 0 <= i < |wrapped| ==>
            wrapped[i].0 != u && wrapped[i].1 <= 256 && RoomOf(h.sessions, wrapped[i].0) == h.sessions[u].room)
      && (forall i, j :: 0 <= i < j < |wrapped| ==> wrapped[i].0 != wrapped[j].0)
  {
    hide Fresh, AllKnow, IdsApart, AllNumbered, ConnsDiffer, IsStored, WithinCaps;
    if u in h.sessions && h.sessions[u].room.Some? {
      var r := h.sessions[u].room.value;
      forall i | 0 <= i < |wrapped| ensures RoomOf(h.sessions, wrapped[i].0) == Some(r) <==> wrapped[i].0 in MembersOf(h.rooms, r) {
        var v := wrapped[i].0;
        if v in h.sessions {
          assert SessionFits(h.sessions, h.rooms, v);
        }
        assert v in MembersOf(h.rooms, r) ==> RoomOf(h.sessions, v) == Some(r);
      }
    }
  }

  // ---- Rooms -----------------------------------------------------------------------------

  /** A kick takes effect exactly on a member of that room, where it is allowed, and is a leave. */
  lemma KicksExactly(h: Hub, whom: UserId, room: RoomId, allowed: bool, luck: Luck)
    requires HubInv(h)
    ensures var (t, outcome) := KickFromRoom(h, whom, room, allowed, luck);
      && OnlyConcerns(h, t, whom)
      && (outcome.Done? <==> allowed && whom in h.sessions && h.sessions[whom].room == Some(room))
      && (if outcome.Done? then IsOut(h, t, whom, MayMove(h, whom, None, false, luck)) else t == h)
  {
    hide LeaveRoom, Fresh, AllKnow, IdsApart, AllNumbered, ConnsDiffer, IsStored, WithinCaps, MayMove, IsOut, InStep;
    LeavesExactly(h, whom, luck);
    SameSessions(h, h, whom);
  }

  /** A room that is added is empty, at epoch 0 and under a new id. */
  lemma AddsExactly(h: Hub, creates: bool)
    requires HubInv(h)
    ensures var (t, outcome) := AddRoom(h, creates);
      && outcome.Done? == creates && t.sessions == h.sessions
      && (if creates then h.nextRoom !in h.rooms && t.rooms == h.rooms[h.nextRoom := Entry(0, {})] else t == h)
  {
    hide Fresh, AllKnow, IdsApart, AllNumbered, ConnsDiffer, IsStored, InStep;
  }

  lemma {:induction false} MovesOutOnly(h: Hub, users: seq<UserId>, lucks: UserId -> Luck, v: UserId)
    requires HubInv(h) && v !in users
    ensures SeatOf(PlaceOut(h, users, lucks).0, v) == SeatOf(h, v)
    decreases |users|
  {
    hide HubInv, Place, SeatOf;
    if users != [] {
      assert users[0] in users;
      var luck := lucks(users[0]);
      MovesExactly(h, users[0], None, false, luck);
      PlaceKeeps(h, users[0], None, false, luck);
      if Place(h, users[0], None, false, luck).1.Done? {
        MovesOutOnly(Place(h, users[0], None, false, luck).0, users[1..], lucks, v);
      }
    }
  }

  /** Deleting a room takes it away exactly if it is there, that is allowed, each of its members could
      be moved out, and the database deletes it; and touches nobody who wasn't a member. */
  lemma DeletesExactly(h: Hub, room: RoomId, allowed: bool, lucks: UserId -> Luck, deletes: bool, v: UserId)
    requires HubInv(h)
    ensures var (t, outcome) := DeleteRoom(h, room, allowed, lucks, deletes);
      && (outcome.Done? <==> room in h.rooms && room !in t.rooms)
      && (outcome.Done? ==> allowed && deletes && (RoomOf(h.sessions, v) == Some(room) ==> RoomOf(t.sessions, v) == None))
      && (!allowed || room !in h.rooms ==> t == h)
      && (forall r :: r != room ==> (r in t.rooms <==> r in h.rooms))
      && (RoomOf(h.sessions, v) != Some(room) ==> SeatOf(t, v) == SeatOf(h, v))
  {
    hide Fresh, AllKnow, IdsApart, AllNumbered, ConnsDiffer, IsStored, WithinCaps, PlaceOut;
    if room in h.rooms && allowed {
      var users := Ordered(h.rooms[room].members);
      OrderedHas(h.rooms[room].members);
      OrderedRises(h.rooms[room].members);
      PlaceOutRooms(h, users, lucks);
      if RoomOf(h.sessions, v) != Some(room) {
        MovesOutOnly(h, users, lucks, v);
      } else {
        assert SessionFits(h.sessions, h.rooms, v);
        if PlaceOut(h, users, lucks).1.Done? {
          PlaceOutMoves(h, users, lucks, v);
        }
      }
    }
  }

  // ---- Everyone else -----------------------------------------------------------------------

  ghost predicate Concerns(h: Hub, op: Op, v: UserId) {
    match op
    case Deletes(room, _, _, _) => RoomOf(h.sessions, v) == Some(room)
    case Kicks(whom, _, _, _) => v == whom
    case Adds(_) => false
    case Restarts => true
    case _ => v == op.u
  }

  /** Whatever happens, whoever it isn't about keeps their connection, room, tracks, key and settings:
      all but what they are told. */
  lemma OthersAreLeftAlone(h: Hub, op: Op, v: UserId)
    requires HubInv(h) && !Concerns(h, op, v)
    ensures SeatOf(Apply(h, op), v) == SeatOf(h, v)
  {
    hide HubInv, Connect, Disconnect, Evict, Place, SetMedia, SetWatched, SetEncryptionKey, KickFromRoom, DeleteRoom, SeatOf,
      SharersIn, IsWatchable, MayMove, IsOut, IsMoved, IsFresh;
    match op
    case SignsIn(u, admin, key, rejoin, hasKey, luck, again) => SignsInExactly(h, u, admin, key, rejoin, hasKey, luck, again);
    case Hangs(u, conn, luck) => HangsUpExactly(h, u, conn, luck);
    case Removes(u, luck) => SignsOutExactly(h, u, luck);
    case Goes(u, target, hasKey, luck) => MovesExactly(h, u, target, hasKey, luck);
    case Speaks(u, deafened, share, allowed) => MediaIsSetExactly(h, u, deafened, share, allowed);
    case Watches(u, ids) => WatchingIsSetExactly(h, u, ids);
    case Rekeys(u, key, allowed, luck) => KeysAreSetExactly(h, u, key, allowed, luck);
    case Kicks(whom, room, allowed, luck) => KicksExactly(h, whom, room, allowed, luck);
    case Deletes(room, allowed, lucks, deletes) => DeletesExactly(h, room, allowed, lucks, deletes, v);
    case Adds(creates) =>
      AddsExactly(h, creates);
      SameSessions(h, AddRoom(h, creates).0, v + 1);
  }
}
