/** What a room's epoch tells: when it rises, and exactly when one epoch has one set of members. */
module HubEpochs {
  import opened Collections
  import opened HubModel
  import opened HubInvariants
  import opened HubSteps
  import opened HubRuns

  /** Between two states, a room's epoch never falls, and only stands still while its members
      stay the same. */
  ghost predicate RoomRises(h: Hub, t: Hub, r: RoomId) {
    r in h.rooms && r in t.rooms ==>
      h.rooms[r].epoch <= t.rooms[r].epoch && (h.rooms[r].epoch == t.rooms[r].epoch ==> h.rooms[r].members == t.rooms[r].members)
  }

  ghost predicate Rises(h: Hub, t: Hub) {
    && h.nextRoom <= t.nextRoom
    && (forall r :: r in t.rooms ==> r in h.rooms || h.nextRoom <= r)
    && (forall r :: r in h.rooms ==> r < h.nextRoom)
    && forall r :: RoomRises(h, t, r)
  }

  lemma RisesTwice(h: Hub, t: Hub, v: Hub)
    requires Rises(h, t) && Rises(t, v)
    ensures Rises(h, v)
  {
    forall r ensures RoomRises(h, v, r) {
      assert RoomRises(h, t, r) && RoomRises(t, v, r);
    }
  }

  lemma SameRoomsRise(h: Hub, t: Hub)
    requires WithinCaps(h) && t.rooms == h.rooms && t.nextRoom == h.nextRoom
    ensures Rises(h, t)
  {
  }

  lemma BumpedRooms(h: Hub, rooms: set<RoomId>, r: RoomId)
    ensures r in Bump(h, rooms).rooms <==> r in h.rooms
    ensures r in h.rooms ==>
      && Bump(h, rooms).rooms[r].members == h.rooms[r].members
      && Bump(h, rooms).rooms[r].epoch == if r in rooms then h.rooms[r].epoch + 1 else h.rooms[r].epoch
  {
  }

  lemma BumpRises(h: Hub, rooms: set<RoomId>)
    requires WithinCaps(h)
    ensures Rises(h, Bump(h, rooms))
  {
    hide Bump;
    BumpStands(h, rooms);
    forall r ensures RoomRises(h, Bump(h, rooms), r) && (r in Bump(h, rooms).rooms ==> r in h.rooms) {
      BumpedRooms(h, rooms, r);
    }
  }

  lemma MovedRises(h: Hub, u: UserId, target: Option<RoomId>, tracks: Option<Tracks>)
    requires Sound(h) && u in h.sessions && h.sessions[u].room != target
    ensures var rooms := OneRoom(h.sessions[u].room) + OneRoom(target);
      Rises(h, Move(Bump(h, rooms), u, target, tracks))
  {
    hide Bump, Move, IdsApart, Numbered, IsStored, ConnsDiffer;
    var rooms := OneRoom(h.sessions[u].room) + OneRoom(target);
    var bumped := Bump(h, rooms);
    var t := Move(bumped, u, target, tracks);
    BumpStands(h, rooms);
    BumpInStep(h, rooms);
    MoveTouches(bumped, u, target, tracks);
    forall r ensures RoomRises(h, t, r) && (r in t.rooms ==> r in h.rooms) {
      BumpedRooms(h, rooms, r);
      MovedMembers(bumped, u, target, tracks, r);
      if r in h.rooms && r !in rooms {
        assert u in h.rooms[r].members ==> RoomOf(h.sessions, u) == Some(r);
        WithoutStranger(h.rooms[r].members, u);
      }
    }
  }

  lemma BumpInStep(h: Hub, rooms: set<RoomId>)
    requires InStep(h.sessions, h.rooms)
    ensures InStep(Bump(h, rooms).sessions, Bump(h, rooms).rooms)
  {
    hide Bump;
    var t := Bump(h, rooms);
    BumpStands(h, rooms);
    forall v | v in t.sessions ensures SessionFits(t.sessions, t.rooms, v) {
      assert SessionFits(h.sessions, h.rooms, v);
      if h.sessions[v].room.Some? {
        BumpedRooms(h, rooms, h.sessions[v].room.value);
      }
    }
    forall r, v | r in t.rooms && v in t.rooms[r].members ensures RoomOf(t.sessions, v) == Some(r) {
      BumpedRooms(h, rooms, r);
      assert RoomOf(h.sessions, v) == Some(r);
    }
  }

  lemma OthersStand(h: Hub, u: UserId)
    ensures Rebuild(h).rooms == h.rooms && Rebuild(h).nextRoom == h.nextRoom && Rebuild(h).nextMedia == h.nextMedia
    ensures var t := PlacementOf(h, u).0; t.rooms == h.rooms && t.nextRoom == h.nextRoom && t.nextMedia == h.nextMedia
  {
  }

  lemma PlaceRises(h: Hub, u: UserId, target: Option<RoomId>, hasKey: bool, luck: Luck)
    requires HubInv(h)
    ensures Rises(h, Place(h, u, target, hasKey, luck).0)
  {
    hide Rebuild, PlacementOf, Move, Bump, Fresh, AllKnow, Rises, RoomRises, Sound;
    RestingRises(h);
    if u in h.sessions {
      var current := h.sessions[u].room;
      OthersStand(h, u);
      SoundCaps(h);
      SameRoomsRise(h, PlacementOf(h, u).0);
      if current != target && !(target.Some? && (target.value !in h.rooms || |h.rooms[target.value].members| >= MAX_ROOM_MEMBERS || !hasKey))
         && !(target.Some? && Reserve(h, luck).None?) {
        var tracks := if target.Some? then Reserve(h, luck) else None;
        var reserved := if target.Some? then h.(nextMedia := h.nextMedia + TRACKS_PER_MEMBERSHIP) else h;
        SameRoomsRise(h, reserved);
        if CanBump(reserved, OneRoom(current) + OneRoom(target), luck) {
          if target.Some? {
            ReserveKeeps(h, luck);
          }
          PlacedRises(reserved, u, target, tracks);
          RisesTwice(h, reserved, PlacementOf(Rebuild(Move(Bump(reserved, OneRoom(current) + OneRoom(target)), u, target, tracks)), u).0);
        }
      }
    }
  }

  lemma SoundCaps(h: Hub)
    requires Sound(h)
    ensures WithinCaps(h)
  {
  }

  lemma RestingRises(h: Hub)
    requires HubInv(h)
    ensures Rises(h, h)
  {
    hide Fresh, InStep;
    SameRoomsRise(h, h);
  }

  lemma PlacedRises(h: Hub, u: UserId, target: Option<RoomId>, tracks: Option<Tracks>)
    requires Sound(h) && u in h.sessions && h.sessions[u].room != target
    ensures Rises(h, PlacementOf(Rebuild(Move(Bump(h, OneRoom(h.sessions[u].room) + OneRoom(target)), u, target, tracks)), u).0)
  {
    hide Rebuild, PlacementOf, Move, Bump, Sound, RoomRises;
    var moved := Move(Bump(h, OneRoom(h.sessions[u].room) + OneRoom(target)), u, target, tracks);
    MovedRises(h, u, target, tracks);
    OthersStand(moved, u);
    OthersStand(Rebuild(moved), u);
    SameRises(h, moved, PlacementOf(Rebuild(moved), u).0);
  }

  lemma SameRises(h: Hub, t: Hub, v: Hub)
    requires Rises(h, t) && v.rooms == t.rooms && v.nextRoom == t.nextRoom
    ensures Rises(h, v)
  {
    forall r ensures RoomRises(h, v, r) {
      assert RoomRises(h, t, r);
    }
  }

  /** Whether `u` is in no room, or its epoch can move when they leave. */
  predicate LeavesCleanly(h: Hub, u: UserId, luck: Luck) {
    RoomOf(h.sessions, u).Some? ==> CanBump(h, OneRoom(RoomOf(h.sessions, u)), luck)
  }

  lemma LeaveRises(h: Hub, u: UserId, luck: Luck)
    requires HubInv(h) && LeavesCleanly(h, u, luck)
    ensures Rises(h, LeaveRoom(h, u, luck))
  {
    hide HubInv, Rises, Rebuild, PlacementOf, Move, Bump;
    RestingRises(h);
    if u in h.sessions {
      PlaceRises(h, u, None, false, luck);
      assert OneRoom(h.sessions[u].room) + OneRoom(None) == OneRoom(h.sessions[u].room);
    }
  }

  /** The other way round: whoever must leave a room whose epoch can't move leaves it at the epoch
      it had, so there one epoch stands for two sets of members. */
  lemma ForcedLeaveKeepsEpoch(h: Hub, u: UserId, luck: Luck)
    requires HubInv(h) && u in h.sessions && !LeavesCleanly(h, u, luck)
    ensures var r := h.sessions[u].room.value;
            var t := LeaveRoom(h, u, luck);
      && r in h.rooms && r in t.rooms
      && t.rooms[r].epoch == h.rooms[r].epoch && t.rooms[r].members == h.rooms[r].members - {u} && u in h.rooms[r].members
  {
    hide Rebuild, Move, Bump, Fresh, AllKnow, IdsApart, PlacementOf;
    var r := h.sessions[u].room.value;
    assert SessionFits(h.sessions, h.rooms, u);
    assert OneRoom(h.sessions[u].room) + OneRoom(None) == OneRoom(h.sessions[u].room);
    PlacedOut(h, u, luck);
    MovedMembers(h, u, None, None, r);
    OthersStand(Move(h, u, None, None), u);
  }

  /** Whether a reconnecting `u` is back at once in the room they were taken out of. The epoch
      that entering takes then covers the leave. */
  predicate Reenters(h: Hub, u: UserId, rejoin: Option<RoomId>, hasKey: bool, again: Luck) {
    RoomOf(h.sessions, u).Some? && rejoin == RoomOf(h.sessions, u) && hasKey && Reserve(h, again).Some?
    && CanBump(h, OneRoom(rejoin), again)
  }

  /** Nobody is taken out of a room whose epoch stays as it was. Placing someone never does so,
      and a restart does unless every room is empty. */
  predicate Smooth(h: Hub, op: Op) {
    match op
    case SignsIn(u, _, _, rejoin, hasKey, luck, again) => LeavesCleanly(h, u, luck) || Reenters(h, u, rejoin, hasKey, again)
    case Hangs(u, conn, luck) => u in h.sessions && h.sessions[u].conn == conn ==> LeavesCleanly(h, u, luck)
    case Removes(u, luck) => LeavesCleanly(h, u, luck)
    case Kicks(u, room, allowed, luck) => allowed && RoomOf(h.sessions, u) == Some(room) ==> LeavesCleanly(h, u, luck)
    case Restarts => forall r :: r in h.rooms ==> h.rooms[r].members == {}
    case _ => true
  }

  lemma EvictRises(h: Hub, u: UserId, luck: Luck)
    requires HubInv(h) && LeavesCleanly(h, u, luck)
    ensures Rises(h, Evict(h, u, luck))
  {
    hide HubInv, Rises, LeaveRoom, LeavesCleanly;
    LeaveRises(h, u, luck);
    SameRises(h, LeaveRoom(h, u, luck), Evict(h, u, luck));
  }

  lemma ConnectRises(h: Hub, u: UserId, admin: bool, key: Option<EncryptionKey>, rejoin: Option<RoomId>, hasKey: bool, luck: Luck, again: Luck)
    requires HubInv(h) && LeavesCleanly(h, u, luck)
    ensures Rises(h, Connect(h, u, admin, key, rejoin, hasKey, luck, again).0)
  {
    hide HubInv, Rises, Evict, LeavesCleanly, Place;
    RestingRises(h);
    if u in h.sessions || !IsFull(h, admin) {
      EvictRises(h, u, luck);
      SameRises(h, Evict(h, u, luck), SignIn(h, u, key, luck));
      SignInKeeps(h, u, admin, key, luck);
      var signedIn := SignIn(h, u, key, luck);
      PlaceRises(signedIn, u, rejoin, hasKey, again);
      RisesTwice(h, signedIn, Place(signedIn, u, rejoin, hasKey, again).0);
    }
  }

  lemma {:induction false} PlaceOutRises(h: Hub, users: seq<UserId>, lucks: UserId -> Luck)
    requires HubInv(h)
    ensures Rises(h, PlaceOut(h, users, lucks).0)
    decreases |users|
  {
    hide HubInv, Rises, Place;
    RestingRises(h);
    if users != [] {
      var after := Place(h, users[0], None, false, lucks(users[0])).0;
      PlaceKeeps(h, users[0], None, false, lucks(users[0]));
      PlaceRises(h, users[0], None, false, lucks(users[0]));
      PlaceOutRises(after, users[1..], lucks);
      RisesTwice(h, after, PlaceOut(after, users[1..], lucks).0);
    }
  }

  lemma DeleteRises(h: Hub, room: RoomId, allowed: bool, lucks: UserId -> Luck, deletes: bool)
    requires HubInv(h)
    ensures Rises(h, DeleteRoom(h, room, allowed, lucks, deletes).0)
  {
    hide HubInv, PlaceOut, RoomRises;
    RestingRises(h);
    if room in h.rooms && allowed {
      var after := PlaceOut(h, Ordered(h.rooms[room].members), lucks).0;
      PlaceOutRises(h, Ordered(h.rooms[room].members), lucks);
      FewerRoomsRise(h, after, room);
    }
  }

  lemma FewerRoomsRise(h: Hub, t: Hub, room: RoomId)
    requires Rises(h, t)
    ensures Rises(h, t.(rooms := t.rooms - {room}, storedEpochs := t.storedEpochs - {room}))
  {
    var v := t.(rooms := t.rooms - {room}, storedEpochs := t.storedEpochs - {room});
    forall r ensures RoomRises(h, v, r) {
      assert RoomRises(h, t, r);
    }
  }

  lemma SettingsRise(h: Hub, op: Op)
    requires HubInv(h) && (op.Speaks? || op.Watches? || op.Rekeys? || op.Adds?)
    ensures Rises(h, Apply(h, op))
  {
    hide Rebuild, Bump, Fresh, InStep, IdsApart, MayWatch, RefusesShare;
    RestingRises(h);
    match op
    case Speaks(u, deafened, share, allowed) =>
      SettingsLeaveRooms(h, op);
      SameRoomsRise(h, Apply(h, op));
    case Watches(u, ids) =>
      SettingsLeaveRooms(h, op);
      SameRoomsRise(h, Apply(h, op));
    case Rekeys(u, key, allowed, luck) =>
      if u in h.sessions {
        var kept := h.(sessions := h.sessions[u := h.sessions[u].(encryptionKey := Some(key))]);
        SameRoomsRise(h, kept);
        WithinCapsStay(h, kept, u);
        if h.sessions[u].room.Some? {
          BumpRises(kept, {h.sessions[u].room.value});
          RisesTwice(h, kept, Bump(kept, {h.sessions[u].room.value}));
        }
      }
    case Adds(creates) =>
  }

  lemma WithinCapsStay(h: Hub, t: Hub, u: UserId)
    requires WithinCaps(h) && u in h.sessions && u in t.sessions && t == h.(sessions := h.sessions[u := t.sessions[u]])
    requires t.sessions[u].share == h.sessions[u].share
    ensures WithinCaps(t)
  {
    SameSet(t.sessions.Keys, h.sessions.Keys);
    forall r | r in t.rooms ensures SharesIn(t, r) <= MAX_ROOM_SHARES {
      assert SharesIn(h, r) <= MAX_ROOM_SHARES;
      forall m ensures m in Sharing(t.sessions, MembersOf(t.rooms, r)) <==> m in Sharing(h.sessions, MembersOf(h.rooms, r)) {
      }
      SameSet(Sharing(t.sessions, MembersOf(t.rooms, r)), Sharing(h.sessions, MembersOf(h.rooms, r)));
    }
  }

  lemma SettingsLeaveRooms(h: Hub, op: Op)
    requires op.Speaks? || op.Watches?
    ensures Apply(h, op).rooms == h.rooms && Apply(h, op).nextRoom == h.nextRoom
  {
    hide AudiencesIn, TableOf, AllAudiences, AllTold, MayWatch, RefusesShare;
  }

  lemma ApplyRises(h: Hub, op: Op)
    requires HubInv(h) && Smooth(h, op)
    ensures Rises(h, Apply(h, op))
  {
    hide HubInv, Connect, Evict, Place, SetMedia, SetWatched, SetEncryptionKey, LeaveRoom, DeleteRoom, AddRoom, LeavesCleanly, Rises, Reenters;
    RestingRises(h);
    match op
    case SignsIn(u, admin, key, rejoin, hasKey, luck, again) =>
      if LeavesCleanly(h, u, luck) {
        ConnectRises(h, u, admin, key, rejoin, hasKey, luck, again);
      } else {
        ReentryRises(h, u, admin, key, rejoin, hasKey, luck, again);
      }
    case Hangs(u, conn, luck) =>
      if Disconnect(h, u, conn, luck) != h {
        EvictRises(h, u, luck);
      }
    case Removes(u, luck) => EvictRises(h, u, luck);
    case Goes(u, target, hasKey, luck) => PlaceRises(h, u, target, hasKey, luck);
    case Kicks(target, room, allowed, luck) =>
      if allowed && RoomOf(h.sessions, target) == Some(room) {
        LeaveRises(h, target, luck);
      }
    case Deletes(room, allowed, lucks, deletes) => DeleteRises(h, room, allowed, lucks, deletes);
    case Restarts => RestartRises(h);
    case _ => SettingsRise(h, op);
  }

  lemma RestartRises(h: Hub)
    requires HubInv(h) && forall r :: r in h.rooms ==> h.rooms[r].members == {}
    ensures Rises(h, Started(h.storedEpochs, h.nextRoom, h.nextMedia))
  {
    hide Fresh, AllKnow, InStep, IdsApart, AllNumbered;
  }

  // ---- Reconnecting into the same room -------------------------------------------------

  /** What a forced leave does to the rooms: it takes `u` out, and nothing else. */
  lemma ForcedLeaveRooms(h: Hub, u: UserId, luck: Luck, r: RoomId)
    requires HubInv(h) && u in h.sessions && !LeavesCleanly(h, u, luck)
    ensures var t := LeaveRoom(h, u, luck);
      && (r in t.rooms <==> r in h.rooms) && MembersOf(t.rooms, r) == MembersOf(h.rooms, r) - {u}
      && (r in h.rooms ==> t.rooms[r].epoch == h.rooms[r].epoch)
      && t.nextRoom == h.nextRoom && t.nextMedia == h.nextMedia
  {
    hide Rebuild, Move, Bump, Fresh, AllKnow, IdsApart, PlacementOf;
    assert SessionFits(h.sessions, h.rooms, u);
    assert OneRoom(h.sessions[u].room) + OneRoom(None) == OneRoom(h.sessions[u].room);
    PlacedOut(h, u, luck);
    MovedMembers(h, u, None, None, r);
    MoveTouches(h, u, None, None);
    OthersStand(Move(h, u, None, None), u);
  }

  lemma SignedInRooms(h: Hub, u: UserId, admin: bool, key: Option<EncryptionKey>, luck: Luck, r: RoomId)
    requires HubInv(h) && u in h.sessions && !LeavesCleanly(h, u, luck)
    ensures var t := SignIn(h, u, key, luck);
      && HubInv(t) && u in t.sessions && t.sessions[u].room.None?
      && (r in t.rooms <==> r in h.rooms) && MembersOf(t.rooms, r) == MembersOf(h.rooms, r) - {u}
      && (r in h.rooms ==> t.rooms[r].epoch == h.rooms[r].epoch)
      && t.nextRoom == h.nextRoom && t.nextMedia == h.nextMedia
  {
    hide HubInv, LeaveRoom, LeavesCleanly;
    SignInKeeps(h, u, admin, key, luck);
    ForcedLeaveRooms(h, u, luck, r);
  }

  /** Whoever enters a room is in it. */
  lemma EnteredHas(h: Hub, u: UserId, r: RoomId, hasKey: bool, luck: Luck)
    requires HubInv(h) && Place(h, u, Some(r), hasKey, luck).1.Done?
    ensures var t := Place(h, u, Some(r), hasKey, luck).0; r in t.rooms && u in t.rooms[r].members
  {
    hide Rebuild, Move, Bump, Fresh, AllKnow, IdsApart, PlacementOf;
    assert SessionFits(h.sessions, h.rooms, u);
    OthersStand(h, u);
    if h.sessions[u].room != Some(r) {
      var rooms := OneRoom(h.sessions[u].room) + OneRoom(Some(r));
      var reserved := h.(nextMedia := h.nextMedia + TRACKS_PER_MEMBERSHIP);
      var moved := Move(Bump(reserved, rooms), u, Some(r), Reserve(h, luck));
      BumpInStep(reserved, rooms);
      BumpStands(reserved, rooms);
      BumpedRooms(reserved, rooms, r);
      MovedMembers(Bump(reserved, rooms), u, Some(r), Reserve(h, luck), r);
      OthersStand(moved, u);
      OthersStand(Rebuild(moved), u);
    }
  }

  lemma ReentryRises(h: Hub, u: UserId, admin: bool, key: Option<EncryptionKey>, rejoin: Option<RoomId>, hasKey: bool, luck: Luck, again: Luck)
    requires HubInv(h) && !LeavesCleanly(h, u, luck) && Reenters(h, u, rejoin, hasKey, again)
    ensures Rises(h, Connect(h, u, admin, key, rejoin, hasKey, luck, again).0)
  {
    hide HubInv, SignIn, LeavesCleanly, Place;
    var r, s := rejoin.value, SignIn(h, u, key, luck);
    var t := Place(s, u, rejoin, hasKey, again).0;
    SignedInRooms(h, u, admin, key, luck, r);
    ReentryIsDone(h, u, admin, key, r, hasKey, luck, again);
    EnteredHas(s, u, r, hasKey, again);
    PlaceRises(s, u, rejoin, hasKey, again);
    RestingRises(h);
    forall q ensures RoomRises(h, t, q) && (q in t.rooms ==> q in h.rooms || h.nextRoom <= q) {
      SignedInRooms(h, u, admin, key, luck, q);
      assert RoomRises(s, t, q);
      if q in h.rooms && u !in h.rooms[q].members {
        WithoutStranger(h.rooms[q].members, u);
      }
      OnlyThere(h, u, r, q);
    }
  }

  lemma OnlyThere(h: Hub, u: UserId, r: RoomId, q: RoomId)
    requires HubInv(h) && RoomOf(h.sessions, u) == Some(r)
    ensures u in MembersOf(h.rooms, q) <==> q == r
    ensures r in h.rooms && |h.rooms[r].members| <= MAX_ROOM_MEMBERS
  {
    hide Fresh, AllKnow, IdsApart;
    assert SessionFits(h.sessions, h.rooms, u);
  }

  lemma ReentryIsDone(h: Hub, u: UserId, admin: bool, key: Option<EncryptionKey>, r: RoomId, hasKey: bool, luck: Luck, again: Luck)
    requires HubInv(h) && RoomOf(h.sessions, u) == Some(r) && !LeavesCleanly(h, u, luck)
    ensures Place(SignIn(h, u, key, luck), u, Some(r), hasKey, again).1.Done? <==> Reenters(h, u, Some(r), hasKey, again)
  {
    hide HubInv, SignIn, LeavesCleanly, Rebuild, Move, Bump, PlacementOf;
    var s := SignIn(h, u, key, luck);
    SignedInRooms(h, u, admin, key, luck, r);
    OnlyThere(h, u, r, r);
    assert |s.rooms[r].members| == |h.rooms[r].members| - 1;
    assert OneRoom(None) + OneRoom(Some(r)) == OneRoom(Some(r));
  }

  // ---- Exactly when --------------------------------------------------------------------

  /** Whatever else happens to the sessions, a forced leave shows in the rooms. */
  lemma ForcedLeaveShows(h: Hub, u: UserId, luck: Luck, t: Hub)
    requires HubInv(h) && u in h.sessions && !LeavesCleanly(h, u, luck) && t.rooms == LeaveRoom(h, u, luck).rooms
    ensures !RoomRises(h, t, h.sessions[u].room.value)
  {
    hide HubInv, LeaveRoom;
    ForcedLeaveKeepsEpoch(h, u, luck);
  }

  lemma ForcedSignInShows(h: Hub, u: UserId, admin: bool, key: Option<EncryptionKey>, rejoin: Option<RoomId>, hasKey: bool, luck: Luck, again: Luck)
    requires HubInv(h) && !LeavesCleanly(h, u, luck) && !Reenters(h, u, rejoin, hasKey, again)
    ensures !RoomRises(h, Connect(h, u, admin, key, rejoin, hasKey, luck, again).0, h.sessions[u].room.value)
  {
    hide HubInv, SignIn, Place, Reenters;
    var r, s := h.sessions[u].room.value, SignIn(h, u, key, luck);
    SignedInRooms(h, u, admin, key, luck, r);
    OnlyThere(h, u, r, r);
    ReentryIsDone(h, u, admin, key, r, hasKey, luck, again);
    ElsewhereStands(s, u, rejoin, hasKey, again, r);
  }

  /** A room that somebody neither was in nor enters is left alone. */
  lemma ElsewhereStands(h: Hub, u: UserId, target: Option<RoomId>, hasKey: bool, luck: Luck, r: RoomId)
    requires HubInv(h) && u in h.sessions && h.sessions[u].room.None? && r in h.rooms
    requires target == Some(r) ==> Place(h, u, target, hasKey, luck).1.Refused?
    ensures var t := Place(h, u, target, hasKey, luck).0; r in t.rooms && t.rooms[r] == h.rooms[r]
  {
    hide Rebuild, Move, Bump, Fresh, AllKnow, IdsApart, PlacementOf;
    OthersStand(h, u);
    if target.Some? && Place(h, u, target, hasKey, luck).1.Done? {
      var reserved := h.(nextMedia := h.nextMedia + TRACKS_PER_MEMBERSHIP);
      var moved := Move(Bump(reserved, OneRoom(None) + OneRoom(target)), u, target, Reserve(h, luck));
      BumpInStep(reserved, OneRoom(None) + OneRoom(target));
      BumpStands(reserved, OneRoom(None) + OneRoom(target));
      BumpedRooms(reserved, OneRoom(None) + OneRoom(target), r);
      MovedMembers(Bump(reserved, OneRoom(None) + OneRoom(target)), u, target, Reserve(h, luck), r);
      assert u !in h.rooms[r].members;
      WithoutStranger(h.rooms[r].members, u);
      OthersStand(moved, u);
      OthersStand(Rebuild(moved), u);
    }
  }

  /** An operation that isn't smooth changes the members of a room and leaves its epoch. */
  lemma ForcedShows(h: Hub, op: Op) returns (r: RoomId)
    requires HubInv(h) && !Smooth(h, op)
    ensures !RoomRises(h, Apply(h, op), r)
  {
    hide HubInv, Connect, Place, LeaveRoom, LeavesCleanly, Reenters, RoomRises;
    var t := Apply(h, op);
    match op
    case SignsIn(u, admin, key, rejoin, hasKey, luck, again) =>
      NobodyLeavesCleanly(h, u, luck);
      ForcedSignInShows(h, u, admin, key, rejoin, hasKey, luck, again);
      r := h.sessions[u].room.value;
    case Hangs(u, conn, luck) =>
      NobodyLeavesCleanly(h, u, luck);
      assert t == Evict(h, u, luck);
      ForcedLeaveShows(h, u, luck, t);
      r := h.sessions[u].room.value;
    case Removes(u, luck) =>
      NobodyLeavesCleanly(h, u, luck);
      ForcedLeaveShows(h, u, luck, t);
      r := h.sessions[u].room.value;
    case Kicks(u, room, allowed, luck) =>
      NobodyLeavesCleanly(h, u, luck);
      assert t == LeaveRoom(h, u, luck);
      ForcedLeaveShows(h, u, luck, t);
      r := h.sessions[u].room.value;
    case Restarts =>
      r := RestartShows(h);
  }

  /** An operation moves the epoch of every room whose members it changes, and lets none fall, if
      and only if it is smooth. */
  lemma RisesExactly(h: Hub, op: Op)
    requires HubInv(h)
    ensures Smooth(h, op) <==> forall r :: RoomRises(h, Apply(h, op), r)
  {
    hide HubInv, Apply, RoomRises, Smooth;
    if Smooth(h, op) {
      ApplyRises(h, op);
    } else {
      var r := ForcedShows(h, op);
    }
  }

  lemma NobodyLeavesCleanly(h: Hub, u: UserId, luck: Luck)
    ensures u !in h.sessions || h.sessions[u].room.None? ==> LeavesCleanly(h, u, luck)
  {
  }

  lemma RestartShows(h: Hub) returns (r: RoomId)
    requires HubInv(h) && !Smooth(h, Restarts)
    ensures !RoomRises(h, Apply(h, Restarts), r)
  {
    hide Fresh, AllKnow, InStep, IdsApart, AllNumbered;
    r :| r in h.rooms && h.rooms[r].members != {};
  }

  // ---- Whole runs ----------------------------------------------------------------------

  /** The hub after the first `i` operations. */
  function At(h: Hub, ops: seq<Op>, i: nat): Hub
    requires i <= |ops|
  {
    Run(h, ops[..i])
  }

  ghost predicate SmoothRun(h: Hub, ops: seq<Op>) {
    forall i :: 0 <= i < |ops| ==> Smooth(At(h, ops, i), ops[i])
  }

  lemma NextMoment(h: Hub, ops: seq<Op>, i: nat)
    requires i < |ops|
    ensures At(h, ops, i + 1) == Apply(At(h, ops, i), ops[i])
  {
    hide Apply;
    assert ops[..i + 1] == ops[..i] + [ops[i]];
    RunsJoin(h, ops[..i], [ops[i]]);
    assert Run(At(h, ops, i), [ops[i]]) == Run(Apply(At(h, ops, i), ops[i]), []);
  }

  lemma MomentKeeps(h: Hub, ops: seq<Op>, i: nat)
    requires HubInv(h) && i <= |ops|
    ensures HubInv(At(h, ops, i))
  {
    hide HubInv, Run;
    RunsKeep(h, ops[..i]);
  }

  lemma {:induction false} MomentsRise(h: Hub, ops: seq<Op>, i: nat, j: nat)
    requires HubInv(h) && SmoothRun(h, ops) && i <= j <= |ops|
    ensures Rises(At(h, ops, i), At(h, ops, j))
    decreases j - i
  {
    hide HubInv, At, Smooth, Apply, Rises;
    if i == j {
      MomentKeeps(h, ops, i);
      RestingRises(At(h, ops, i));
    } else {
      MomentsRise(h, ops, i, j - 1);
      MomentKeeps(h, ops, j - 1);
      NextMoment(h, ops, j - 1);
      ApplyRises(At(h, ops, j - 1), ops[j - 1]);
      RisesTwice(At(h, ops, i), At(h, ops, j - 1), At(h, ops, j));
    }
  }

  /** At any two moments of a run no room's epoch has fallen, and a room still at the same epoch
      has the same members, if and only if every operation of the run is smooth. */
  lemma EpochsTellMembers(h: Hub, ops: seq<Op>)
    requires HubInv(h)
    ensures SmoothRun(h, ops) <==>
      forall i, j, r :: 0 <= i <= j <= |ops| ==> RoomRises(At(h, ops, i), At(h, ops, j), r)
  {
    hide HubInv, At, Smooth, Apply, Rises, RoomRises;
    if SmoothRun(h, ops) {
      forall i, j, r | 0 <= i <= j <= |ops| ensures RoomRises(At(h, ops, i), At(h, ops, j), r) {
        MomentsRise(h, ops, i, j);
        RisesAt(At(h, ops, i), At(h, ops, j), r);
      }
    } else {
      var i :| 0 <= i < |ops| && !Smooth(At(h, ops, i), ops[i]);
      MomentKeeps(h, ops, i);
      NextMoment(h, ops, i);
      var r := ForcedShows(At(h, ops, i), ops[i]);
    }
  }

  lemma RisesAt(h: Hub, t: Hub, r: RoomId)
    requires Rises(h, t)
    ensures RoomRises(h, t, r)
  {
  }

  // ---- It does happen ------------------------------------------------------------------

  const LUCKY: Luck := Luck(true, true)

  /** Someone signs in, enters a room, and is removed while the database fails. */
  const REMOVED_IN_A_ROOM: seq<Op> := [SignsIn(1, false, None, None, true, LUCKY, LUCKY), Goes(1, Some(0), true, LUCKY),
                                       Removes(1, Luck(true, false))]

  const ONE_ROOM: Hub := Started(map[0 := 0], 1, 0)

  lemma SomeoneSignsIn()
    ensures var t := Apply(ONE_ROOM, REMOVED_IN_A_ROOM[0]);
      t.rooms == ONE_ROOM.rooms && t.nextMedia == 0 && 1 in t.sessions && t.sessions[1].room.None? && HubInv(t)
  {
    hide HubInv;
    StartKeeps(map[0 := 0], 1, 0);
    ApplyKeeps(ONE_ROOM, REMOVED_IN_A_ROOM[0]);
  }

  lemma SomeoneEnters(h: Hub)
    requires HubInv(h) && h.rooms == map[0 := Entry(0, {})] && h.nextMedia == 0 && 1 in h.sessions && h.sessions[1].room.None?
    ensures var t := Apply(h, REMOVED_IN_A_ROOM[1]); 0 in t.rooms && t.rooms[0].members == {1} && RoomOf(t.sessions, 1) == Some(0)
  {
    hide Rebuild, Move, Bump, Fresh, AllKnow, IdsApart, PlacementOf, HubInv;
    var rooms := OneRoom(None) + OneRoom(Some(0));
    var t, reserved := Apply(h, REMOVED_IN_A_ROOM[1]), h.(nextMedia := h.nextMedia + TRACKS_PER_MEMBERSHIP);
    var moved := Move(Bump(reserved, rooms), 1, Some(0), Reserve(h, LUCKY));
    ApplyKeeps(h, REMOVED_IN_A_ROOM[1]);
    EnteredHas(h, 1, 0, true, LUCKY);
    InRoomIs(t, 1, 0);
    InRoomIs(h, 1, 0);
    BumpInStep(reserved, rooms);
    BumpStands(reserved, rooms);
    BumpedRooms(reserved, rooms, 0);
    MovedMembers(Bump(reserved, rooms), 1, Some(0), Reserve(h, LUCKY), 0);
    OthersStand(moved, 1);
    OthersStand(Rebuild(moved), 1);
  }

  lemma InRoomIs(h: Hub, u: UserId, r: RoomId)
    requires HubInv(h)
    ensures InStep(h.sessions, h.rooms) && (u in MembersOf(h.rooms, r) ==> RoomOf(h.sessions, u) == Some(r))
  {
    hide Fresh, AllKnow, IdsApart, WithinCaps;
  }

  /** A room at one epoch with two sets of members. */
  lemma OneEpochTwoMemberSets()
    ensures HubInv(ONE_ROOM) && !SmoothRun(ONE_ROOM, REMOVED_IN_A_ROOM)
    ensures var before, after := At(ONE_ROOM, REMOVED_IN_A_ROOM, 2), At(ONE_ROOM, REMOVED_IN_A_ROOM, 3);
      && 0 in before.rooms && 0 in after.rooms
      && before.rooms[0].epoch == after.rooms[0].epoch && before.rooms[0].members == {1} && after.rooms[0].members == {}
  {
    hide HubInv, Run, Apply, LeaveRoom;
    StartKeeps(map[0 := 0], 1, 0);
    var ops, unlucky := REMOVED_IN_A_ROOM, Luck(true, false);
    RunsNothing(ONE_ROOM, ops);
    NextMoment(ONE_ROOM, ops, 0);
    NextMoment(ONE_ROOM, ops, 1);
    NextMoment(ONE_ROOM, ops, 2);
    SomeoneSignsIn();
    SomeoneEnters(At(ONE_ROOM, ops, 1));
    var before := At(ONE_ROOM, ops, 2);
    MomentKeeps(ONE_ROOM, ops, 2);
    assert !Smooth(before, ops[2]);
    ForcedLeaveKeepsEpoch(before, 1, unlucky);
    RemovedIs(before, unlucky);
  }

  lemma RunsNothing(h: Hub, ops: seq<Op>)
    ensures At(h, ops, 0) == h
  {
  }

  lemma RemovedIs(h: Hub, luck: Luck)
    ensures Apply(h, Removes(1, luck)).rooms == LeaveRoom(h, 1, luck).rooms
  {
    hide LeaveRoom;
  }
}
