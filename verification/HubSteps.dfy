/** Each operation of the hub keeps its invariant, although many never recompute the routes. */
module HubSteps {
  import opened Collections
  import opened HubModel
  import opened HubInvariants

  lemma KnowsAll(h: Hub)
    ensures AllKnow(h) <==> KnowBut(h.sessions, h.audiences, None)
  {
  }

  /** Skipping the rebuild is right where nothing that routes depend on changed. */
  lemma StaysFresh(h: Hub, t: Hub)
    requires Fresh(h) && t.table == h.table && t.audiences == h.audiences
    requires SameRouting(h.sessions, h.rooms, t.sessions, t.rooms)
    ensures Fresh(t)
  {
    hide TableOf, AllAudiences, SameRouting;
    TablesAgree(h.sessions, h.rooms, t.sessions, t.rooms);
    AllAudiencesAgree(h.sessions, h.rooms, t.sessions, t.rooms);
  }

  // ---- Moving --------------------------------------------------------------------------

  lemma ReserveKeeps(h: Hub, luck: Luck)
    requires HubInv(h) && Reserve(h, luck).Some?
    ensures HubInv(h.(nextMedia := h.nextMedia + TRACKS_PER_MEMBERSHIP))
    ensures AreNew(h.sessions, Reserve(h, luck).value, h.nextMedia + TRACKS_PER_MEMBERSHIP)
  {
    hide InStep, TableOf, AllAudiences, Numbered, KnowsLast;
    var t := h.(nextMedia := h.nextMedia + TRACKS_PER_MEMBERSHIP);
    forall r | r in t.rooms ensures SharesIn(t, r) <= MAX_ROOM_SHARES {
      assert SharesIn(h, r) <= MAX_ROOM_SHARES;
    }
  }

  lemma MovedKeeps(h: Hub, u: UserId, target: Option<RoomId>, tracks: Option<Tracks>, rooms: set<RoomId>, luck: Luck)
    requires HubInv(h) && u in h.sessions && h.sessions[u].room != target && CanBump(h, rooms, luck)
    requires target.Some? ==> target.value in h.rooms && |h.rooms[target.value].members| < MAX_ROOM_MEMBERS
    requires tracks.Some? <==> target.Some?
    requires tracks.Some? ==> AreNew(h.sessions, tracks.value, h.nextMedia)
    ensures HubInv(PlacementOf(Rebuild(Move(Bump(h, rooms), u, target, tracks)), u).0)
  {
    hide Sound, Fresh, Move, Rebuild, PlacementOf, KnowBut;
    KnowsAll(h);
    BumpKeeps(h, rooms, luck);
    var bumped := Bump(h, rooms);
    assert target.Some? ==> bumped.rooms[target.value].members == h.rooms[target.value].members;
    MoveKeeps(bumped, u, target, tracks);
    var moved := Move(bumped, u, target, tracks);
    MoveTouches(bumped, u, target, tracks);
    assert moved.audiences == h.audiences;
    RebuildKeeps(moved, Some(u));
    PlacementKeeps(Rebuild(moved), u);
  }

  lemma PlaceKeeps(h: Hub, u: UserId, target: Option<RoomId>, hasKey: bool, luck: Luck)
    requires HubInv(h)
    ensures HubInv(Place(h, u, target, hasKey, luck).0)
  {
    hide HubInv, PlacementOf, Rebuild, Move, Bump;
    if u in h.sessions {
      var current := h.sessions[u].room;
      if current == target {
        StayKeeps(h, u);
      } else if !(target.Some? && (target.value !in h.rooms || |h.rooms[target.value].members| >= MAX_ROOM_MEMBERS || !hasKey))
                && !(target.Some? && Reserve(h, luck).None?) {
        var tracks := if target.Some? then Reserve(h, luck) else None;
        var reserved := if target.Some? then h.(nextMedia := h.nextMedia + TRACKS_PER_MEMBERSHIP) else h;
        var changed := OneRoom(current) + OneRoom(target);
        if target.Some? {
          ReserveKeeps(h, luck);
        }
        if CanBump(reserved, changed, luck) {
          MovedKeeps(reserved, u, target, tracks, changed, luck);
        }
      }
    }
  }

  lemma StayKeeps(h: Hub, u: UserId)
    requires HubInv(h)
    ensures HubInv(PlacementOf(h, u).0)
  {
    hide Sound, Fresh, PlacementOf;
    PlacementKeeps(h, u);
  }

  lemma PlacedOut(h: Hub, u: UserId, luck: Luck)
    requires u in h.sessions
    ensures var (after, placed) := Place(h, u, None, false, luck);
      && u in after.sessions
      && (placed.Done? ==> after.sessions[u].room.None?)
      && (placed.Refused? ==> after == h)
  {
    hide Rebuild, Move, PlacementOf;
    if CanBump(h, OneRoom(h.sessions[u].room) + OneRoom(None), luck) {
      ForcedIsOut(Bump(h, OneRoom(h.sessions[u].room) + OneRoom(None)), u);
      PlacementInLobby(Rebuild(Move(Bump(h, OneRoom(h.sessions[u].room) + OneRoom(None)), u, None, None)), u);
    }
    PlacementInLobby(h, u);
  }

  lemma PlacementInLobby(h: Hub, u: UserId)
    requires u in h.sessions
    ensures h.sessions[u].room.None? ==> PlacementOf(h, u).0 == h
  {
  }

  lemma ForcedOutKeeps(h: Hub, u: UserId)
    requires HubInv(h) && u in h.sessions && h.sessions[u].room.Some?
    ensures HubInv(Rebuild(Move(h, u, None, None)))
  {
    hide Sound, Fresh, Move, Rebuild, KnowBut;
    KnowsAll(h);
    MoveKeeps(h, u, None, None);
    MoveTouches(h, u, None, None);
    RebuildKeeps(Move(h, u, None, None), None);
    KnowsAll(Rebuild(Move(h, u, None, None)));
  }

  /** Whatever the database does, whoever is to leave their room leaves it. */
  lemma LeaveKeeps(h: Hub, u: UserId, luck: Luck)
    requires HubInv(h)
    ensures HubInv(LeaveRoom(h, u, luck))
    ensures RoomOf(LeaveRoom(h, u, luck).sessions, u) == None
    ensures u in h.sessions ==> u in LeaveRoom(h, u, luck).sessions
  {
    hide HubInv, Place, Rebuild, Move;
    if u in h.sessions {
      PlaceKeeps(h, u, None, false, luck);
      PlacedOut(h, u, luck);
      if Place(h, u, None, false, luck).1.Refused? && h.sessions[u].room.Some? {
        ForcedOutKeeps(h, u);
        ForcedIsOut(h, u);
      }
    }
  }

  lemma ForcedIsOut(h: Hub, u: UserId)
    requires u in h.sessions
    ensures var t := Rebuild(Move(h, u, None, None)); u in t.sessions && t.sessions[u].room.None?
  {
    hide ChangedRooms, AudiencesIn, TableOf, AllAudiences, With, HubModel.Without;
  }

  // ---- Connections ---------------------------------------------------------------------

  /** Only a session outside every room came, went or changed. */
  ghost predicate OnlyLobby(h: Hub, t: Hub, u: UserId) {
    && t.sessions - {u} == h.sessions - {u}
    && RoomOf(h.sessions, u) == None && RoomOf(t.sessions, u) == None
    && t.rooms == h.rooms && t.table == h.table && t.audiences == h.audiences && t.nextMedia == h.nextMedia
    && t.storedEpochs == h.storedEpochs && t.nextRoom == h.nextRoom
  }

  lemma LobbyRoutesAlike(h: Hub, t: Hub, u: UserId)
    requires InStep(h.sessions, h.rooms) && OnlyLobby(h, t, u)
    ensures SameRouting(h.sessions, h.rooms, t.sessions, t.rooms)
  {
    forall v | v != u ensures Alike(h.sessions, t.sessions, v) {
      OneLeft(h.sessions, u, v);
      OneLeft(t.sessions, u, v);
    }
    forall v ensures v in Placed(h.sessions) <==> v in Placed(t.sessions) {
      assert v != u ==> Alike(h.sessions, t.sessions, v);
    }
    SameSet(Placed(h.sessions), Placed(t.sessions));
    forall r ensures AllAlike(h.sessions, t.sessions, MembersOf(h.rooms, r)) {
      assert r in h.rooms && u in h.rooms[r].members ==> RoomOf(h.sessions, u) == Some(r);
    }
  }

  lemma OneLeft(sessions: Sessions, u: UserId, v: UserId)
    requires v != u
    ensures v in sessions - {u} <==> v in sessions
    ensures v in sessions ==> (sessions - {u})[v] == sessions[v]
  {
  }

  lemma LobbyKeeps(h: Hub, t: Hub, u: UserId)
    requires HubInv(h) && OnlyLobby(h, t, u)
    requires |t.sessions| <= MAX_SIGNED_IN && ConnsDiffer(t)
    requires u in t.sessions ==> SessionFits(t.sessions, t.rooms, u) && Numbered(t.sessions[u])
    ensures HubInv(t)
  {
    hide Fresh, InStep, IdsApart, WithinCaps, ConnsDiffer, AllNumbered, AllKnow, Numbered;
    LobbyRoutesAlike(h, t, u);
    StaysFresh(h, t);
    LobbyOthers(h, t, u);
    LobbyInStep(h, t, u);
    LobbyCaps(h, t, u);
    LobbySessions(h, t, u);
  }

  lemma LobbyOthers(h: Hub, t: Hub, u: UserId)
    requires OnlyLobby(h, t, u)
    ensures forall v :: v != u ==> (v in t.sessions <==> v in h.sessions) && (v in t.sessions ==> t.sessions[v] == h.sessions[v])
  {
    forall v | v != u ensures (v in t.sessions <==> v in h.sessions) && (v in t.sessions ==> t.sessions[v] == h.sessions[v]) {
      OneLeft(h.sessions, u, v);
      OneLeft(t.sessions, u, v);
    }
  }

  /** What each session is by itself. */
  lemma LobbySessions(h: Hub, t: Hub, u: UserId)
    requires IdsApart(h.sessions, h.nextMedia) && AllNumbered(h.sessions) && AllKnow(h)
    requires t.audiences == h.audiences && t.nextMedia == h.nextMedia
    requires forall v :: v != u ==> (v in t.sessions <==> v in h.sessions) && (v in t.sessions ==> t.sessions[v] == h.sessions[v])
    requires u in t.sessions ==> t.sessions[u].room.None? && t.sessions[u].tracks.None? && Numbered(t.sessions[u])
    ensures IdsApart(t.sessions, t.nextMedia) && AllNumbered(t.sessions) && AllKnow(t)
  {
    hide Numbered, Apart, FromOne;
  }

  lemma LobbyInStep(h: Hub, t: Hub, u: UserId)
    requires InStep(h.sessions, h.rooms) && t.rooms == h.rooms && RoomOf(h.sessions, u) == None
    requires forall v :: v != u ==> (v in t.sessions <==> v in h.sessions) && (v in t.sessions ==> t.sessions[v] == h.sessions[v])
    requires u in t.sessions ==> SessionFits(t.sessions, t.rooms, u)
    ensures InStep(t.sessions, t.rooms)
  {
    forall v | v in t.sessions ensures SessionFits(t.sessions, t.rooms, v) {
      assert v != u ==> SessionFits(h.sessions, h.rooms, v);
    }
    forall r, v | r in t.rooms && v in t.rooms[r].members ensures RoomOf(t.sessions, v) == Some(r) {
      assert RoomOf(h.sessions, v) == Some(r);
    }
  }

  lemma LobbyCaps(h: Hub, t: Hub, u: UserId)
    requires InStep(h.sessions, h.rooms) && WithinCaps(h) && RoomOf(h.sessions, u) == None
    requires t.rooms == h.rooms && t.nextMedia == h.nextMedia && t.nextRoom == h.nextRoom && |t.sessions| <= MAX_SIGNED_IN
    requires forall v :: v != u ==> (v in t.sessions <==> v in h.sessions) && (v in t.sessions ==> t.sessions[v] == h.sessions[v])
    ensures WithinCaps(t)
  {
    forall r | r in t.rooms ensures SharesIn(t, r) <= MAX_ROOM_SHARES {
      forall m ensures m in Sharing(t.sessions, MembersOf(t.rooms, r)) <==> m in Sharing(h.sessions, MembersOf(h.rooms, r)) {
        assert m in h.rooms[r].members ==> RoomOf(h.sessions, m) == Some(r);
      }
      SameSet(Sharing(t.sessions, MembersOf(t.rooms, r)), Sharing(h.sessions, MembersOf(h.rooms, r)));
      assert SharesIn(h, r) <= MAX_ROOM_SHARES;
    }
  }

  lemma EvictKeeps(h: Hub, u: UserId, luck: Luck)
    requires HubInv(h)
    ensures HubInv(Evict(h, u, luck)) && u !in Evict(h, u, luck).sessions
  {
    hide LeaveRoom, InStep, IdsApart, IsStored, AllNumbered, Fresh, AllKnow;
    LeaveKeeps(h, u, luck);
    var left, t := LeaveRoom(h, u, luck), Evict(h, u, luck);
    assert t.sessions - {u} == left.sessions - {u};
    assert t.sessions.Keys == left.sessions.Keys - {u};
    FewerMembers(left.sessions.Keys, u);
    assert |t.sessions| == |t.sessions.Keys| && |left.sessions| == |left.sessions.Keys|;
    LobbyKeeps(left, t, u);
  }

  lemma SignInKeeps(h: Hub, u: UserId, admin: bool, key: Option<EncryptionKey>, luck: Luck)
    requires HubInv(h) && (u in h.sessions || !IsFull(h, admin))
    ensures HubInv(SignIn(h, u, key, luck))
  {
    hide Evict, InStep, IdsApart, IsStored, AllNumbered, Fresh, AllKnow;
    var evicted, t := Evict(h, u, luck), SignIn(h, u, key, luck);
    EvictKeeps(h, u, luck);
    EvictCounts(h, u, luck);
    OneMoreSession(evicted.sessions, u, t.sessions[u]);
    hide HubInv;
    LobbyKeeps(evicted, t, u);
  }

  lemma OneMoreSession(sessions: Sessions, u: UserId, s: Session)
    requires u !in sessions
    ensures sessions[u := s] - {u} == sessions - {u}
    ensures |sessions[u := s]| == |sessions| + 1
  {
    assert sessions[u := s].Keys == sessions.Keys + {u};
  }

  /** Evicting leaves one session fewer, if there was one, and the connections as they were. */
  lemma EvictCounts(h: Hub, u: UserId, luck: Luck)
    ensures Evict(h, u, luck).sessions.Keys == h.sessions.Keys - {u}
    ensures |Evict(h, u, luck).sessions| == if u in h.sessions then |h.sessions| - 1 else |h.sessions|
    ensures Evict(h, u, luck).nextConn == h.nextConn
    ensures forall v :: v in Evict(h, u, luck).sessions ==> Evict(h, u, luck).sessions[v].conn == h.sessions[v].conn
  {
    hide LeaveRoom;
    LeaveStands(h, u, luck);
    var t := Evict(h, u, luck);
    assert t.sessions.Keys == h.sessions.Keys - {u};
    assert |t.sessions| == |t.sessions.Keys| && |h.sessions| == |h.sessions.Keys|;
    if u !in h.sessions {
      assert h.sessions.Keys - {u} == h.sessions.Keys;
    }
  }

  /** No session comes or goes, and none changes its connection. */
  ghost predicate SameConns(h: Hub, t: Hub) {
    && t.sessions.Keys == h.sessions.Keys && t.nextConn == h.nextConn
    && forall v :: v in h.sessions ==> t.sessions[v].conn == h.sessions[v].conn
  }

  lemma RebuildStands(h: Hub)
    ensures SameConns(h, Rebuild(h))
  {
    hide ChangedRooms, AudiencesIn, TableOf, AllAudiences;
    SameSet(Rebuild(h).sessions.Keys, h.sessions.Keys);
  }

  lemma MoveStands(h: Hub, u: UserId, target: Option<RoomId>, tracks: Option<Tracks>)
    requires u in h.sessions
    ensures SameConns(h, Move(h, u, target, tracks))
  {
    hide Move;
    MoveTouches(h, u, target, tracks);
    SameSet(Move(h, u, target, tracks).sessions.Keys, h.sessions.Keys);
  }

  lemma PlacementStands(h: Hub, u: UserId)
    ensures SameConns(h, PlacementOf(h, u).0)
  {
    if u in h.sessions {
      SameSet(PlacementOf(h, u).0.sessions.Keys, h.sessions.Keys);
    }
  }

  lemma PlaceStands(h: Hub, u: UserId, target: Option<RoomId>, hasKey: bool, luck: Luck)
    ensures SameConns(h, Place(h, u, target, hasKey, luck).0)
  {
    hide Rebuild, Move, PlacementOf, AudiencesIn;
    if u in h.sessions {
      var current := h.sessions[u].room;
      var tracks := if target.Some? then Reserve(h, luck) else None;
      var reserved := if target.Some? then h.(nextMedia := h.nextMedia + TRACKS_PER_MEMBERSHIP) else h;
      var bumped := Bump(reserved, OneRoom(current) + OneRoom(target));
      var moved := Move(bumped, u, target, tracks);
      MoveStands(bumped, u, target, tracks);
      RebuildStands(moved);
      PlacementStands(Rebuild(moved), u);
      PlacementStands(h, u);
    }
  }

  lemma LeaveStands(h: Hub, u: UserId, luck: Luck)
    ensures SameConns(h, LeaveRoom(h, u, luck))
  {
    hide Rebuild, Move, Place;
    if u in h.sessions {
      PlaceStands(h, u, None, false, luck);
      PlacedOut(h, u, luck);
      MoveStands(h, u, None, None);
      RebuildStands(Move(h, u, None, None));
    }
  }

  lemma ConnectKeeps(h: Hub, u: UserId, admin: bool, key: Option<EncryptionKey>, rejoin: Option<RoomId>, hasKey: bool,
                     evicting: Luck, rejoining: Luck)
    requires HubInv(h)
    ensures HubInv(Connect(h, u, admin, key, rejoin, hasKey, evicting, rejoining).0)
  {
    hide HubInv, SignIn, Place;
    if u in h.sessions || !IsFull(h, admin) {
      SignInKeeps(h, u, admin, key, evicting);
      PlaceKeeps(SignIn(h, u, key, evicting), u, rejoin, hasKey, rejoining);
    }
  }

  lemma DisconnectKeeps(h: Hub, u: UserId, conn: ConnId, luck: Luck)
    requires HubInv(h)
    ensures HubInv(Disconnect(h, u, conn, luck))
  {
    hide HubInv, Evict;
    EvictKeeps(h, u, luck);
  }

  // ---- Requests ------------------------------------------------------------------------

  /** A member's session changed, but nothing that decides where they are or what they send. */
  ghost predicate OnlySettings(h: Hub, t: Hub, u: UserId) {
    && u in h.sessions && u in t.sessions && t == h.(sessions := h.sessions[u := t.sessions[u]])
    && t.sessions[u] == h.sessions[u].(encryptionKey := t.sessions[u].encryptionKey, deafened := t.sessions[u].deafened,
                                       share := t.sessions[u].share, watching := t.sessions[u].watching)
  }

  lemma SettingsKeep(h: Hub, t: Hub, u: UserId)
    requires HubInv(h) && OnlySettings(h, t, u)
    requires h.sessions[u].room.None? ==> t.sessions[u].share.None? && t.sessions[u].watching == []
    requires h.sessions[u].room.Some? ==> SharesIn(t, h.sessions[u].room.value) <= MAX_ROOM_SHARES
    ensures Sound(t) && KnowBut(t.sessions, t.audiences, None)
  {
    hide Fresh, InStep, IdsApart, WithinCaps, AllNumbered, AllKnow, KnowBut;
    SameSet(t.sessions.Keys, h.sessions.Keys);
    SettingsInStep(h, t, u);
    SettingsCaps(h, t, u);
    SettingsKeepIds(h.sessions, t.sessions, u, h.nextMedia);
    SettingsTold(h, t, u);
  }

  lemma SettingsInStep(h: Hub, t: Hub, u: UserId)
    requires InStep(h.sessions, h.rooms) && OnlySettings(h, t, u)
    requires h.sessions[u].room.None? ==> t.sessions[u].share.None? && t.sessions[u].watching == []
    ensures InStep(t.sessions, t.rooms)
  {
    forall v | v in t.sessions ensures SessionFits(t.sessions, t.rooms, v) {
      assert SessionFits(h.sessions, h.rooms, v);
    }
    forall r, v | r in t.rooms && v in t.rooms[r].members ensures RoomOf(t.sessions, v) == Some(r) {
      assert RoomOf(h.sessions, v) == Some(r);
    }
  }

  lemma SettingsCaps(h: Hub, t: Hub, u: UserId)
    requires InStep(h.sessions, h.rooms) && WithinCaps(h) && OnlySettings(h, t, u) && t.sessions.Keys == h.sessions.Keys
    requires h.sessions[u].room.Some? ==> SharesIn(t, h.sessions[u].room.value) <= MAX_ROOM_SHARES
    ensures WithinCaps(t)
  {
    assert |t.sessions| == |t.sessions.Keys| && |h.sessions| == |h.sessions.Keys|;
    forall r | r in t.rooms ensures SharesIn(t, r) <= MAX_ROOM_SHARES {
      assert SharesIn(h, r) <= MAX_ROOM_SHARES;
      if h.sessions[u].room != Some(r) {
        forall m ensures m in Sharing(t.sessions, MembersOf(t.rooms, r)) <==> m in Sharing(h.sessions, MembersOf(h.rooms, r)) {
          assert m in h.rooms[r].members ==> RoomOf(h.sessions, m) == Some(r);
        }
        SameSet(Sharing(t.sessions, MembersOf(t.rooms, r)), Sharing(h.sessions, MembersOf(h.rooms, r)));
      }
    }
  }

  lemma SettingsTold(h: Hub, t: Hub, u: UserId)
    requires AllNumbered(h.sessions) && AllKnow(h) && OnlySettings(h, t, u)
    ensures AllNumbered(t.sessions) && KnowBut(t.sessions, t.audiences, None)
  {
    SameNumbers(h.sessions[u], t.sessions[u]);
    hide Numbered;
  }

  lemma SettingsKeepIds(a: Sessions, b: Sessions, u: UserId, nextMedia: nat)
    requires IdsApart(a, nextMedia) && u in a && u in b && b == a[u := b[u]] && b[u].tracks == a[u].tracks
    ensures IdsApart(b, nextMedia)
  {
  }

  /** Settings that routes don't depend on need no rebuild. */
  lemma QuietSettingsKeep(h: Hub, t: Hub, u: UserId)
    requires HubInv(h) && OnlySettings(h, t, u) && Alike(h.sessions, t.sessions, u)
    ensures HubInv(t)
  {
    hide TableOf, AllAudiences;
    assert SessionFits(h.sessions, h.rooms, u);
    if h.sessions[u].room.Some? {
      var r := h.sessions[u].room.value;
      assert SharesIn(h, r) <= MAX_ROOM_SHARES;
      forall m ensures m in Sharing(t.sessions, MembersOf(t.rooms, r)) <==> m in Sharing(h.sessions, MembersOf(h.rooms, r)) {
      }
      SameSet(Sharing(t.sessions, MembersOf(t.rooms, r)), Sharing(h.sessions, MembersOf(h.rooms, r)));
    }
    SettingsKeep(h, t, u);
    KnowsAll(t);
    QuietRoutesAlike(h, t, u);
    hide SameRouting, Sound;
    StaysFresh(h, t);
  }

  lemma QuietRoutesAlike(h: Hub, t: Hub, u: UserId)
    requires OnlySettings(h, t, u) && Alike(h.sessions, t.sessions, u)
    ensures SameRouting(h.sessions, h.rooms, t.sessions, t.rooms)
  {
    forall v ensures v in Placed(h.sessions) <==> v in Placed(t.sessions) {
    }
    SameSet(Placed(h.sessions), Placed(t.sessions));
  }

  lemma LoudSettingsKeep(h: Hub, t: Hub, u: UserId)
    requires HubInv(h) && OnlySettings(h, t, u)
    requires h.sessions[u].room.None? ==> t.sessions[u].share.None? && t.sessions[u].watching == []
    requires h.sessions[u].room.Some? ==> SharesIn(t, h.sessions[u].room.value) <= MAX_ROOM_SHARES
    ensures HubInv(Rebuild(t))
  {
    SettingsKeep(h, t, u);
    hide Sound, Fresh, Rebuild;
    RebuildKeeps(t, None);
    KnowsAll(Rebuild(t));
  }

  /** A share that isn't refused leaves the room within its shares. */
  lemma SharesStayFew(h: Hub, t: Hub, u: UserId, share: Option<int>, allowed: bool)
    requires HubInv(h) && OnlySettings(h, t, u) && h.sessions[u].room.Some?
    requires t.sessions[u].share == if RefusesShare(h, u, share, allowed) then h.sessions[u].share else share
    ensures SharesIn(t, h.sessions[u].room.value) <= MAX_ROOM_SHARES
  {
    hide Fresh, IdsApart, Numbered;
    var r := h.sessions[u].room.value;
    assert SessionFits(h.sessions, h.rooms, u) && SharesIn(h, r) <= MAX_ROOM_SHARES;
    var after, before := Sharing(t.sessions, MembersOf(t.rooms, r)), Sharing(h.sessions, MembersOf(h.rooms, r));
    forall m ensures m in after ==> m in before + {u} {
    }
    Within(after, before + {u});
    if t.sessions[u].share.Some? && h.sessions[u].share.None? {
      Fewer(after, before + {u});
      OneMoreMember(before, u);
    } else {
      forall m ensures m in after ==> m in before {
      }
      Within(after, before);
      Fewer(after, before);
    }
  }

  lemma SetMediaKeeps(h: Hub, u: UserId, deafened: bool, share: Option<int>, allowed: bool)
    requires HubInv(h)
    ensures HubInv(SetMedia(h, u, deafened, share, allowed).0)
  {
    hide HubInv, RefusesShare, Rebuild;
    if RoomOf(h.sessions, u).Some? {
      var stored := h.sessions[u];
      var t := h.(sessions := h.sessions[u := stored.(deafened := deafened,
                  share := if RefusesShare(h, u, share, allowed) then stored.share else share)]);
      SharesStayFew(h, t, u, share, allowed);
      if deafened != stored.deafened || t.sessions[u].share.Some? != stored.share.Some? {
        LoudSettingsKeep(h, t, u);
      } else {
        QuietSettingsKeep(h, t, u);
      }
    }
  }

  lemma SetWatchedKeeps(h: Hub, u: UserId, ids: seq<MediaId>)
    requires HubInv(h)
    ensures HubInv(SetWatched(h, u, ids).0)
  {
    hide HubInv, MayWatch, Rebuild;
    if RoomOf(h.sessions, u).Some? {
      var t := h.(sessions := h.sessions[u := h.sessions[u].(watching := ids)]);
      SharesStayFew(h, t, u, h.sessions[u].share, true);
      LoudSettingsKeep(h, t, u);
    }
  }

  lemma BumpStaysFresh(h: Hub, rooms: set<RoomId>, luck: Luck)
    requires HubInv(h) && CanBump(h, rooms, luck)
    ensures HubInv(Bump(h, rooms))
  {
    hide TableOf, AllAudiences, Sound;
    BumpKeeps(h, rooms, luck);
    StaysFresh(h, Bump(h, rooms));
  }

  lemma SetKeyKeeps(h: Hub, u: UserId, key: EncryptionKey, allowed: bool, luck: Luck)
    requires HubInv(h)
    ensures HubInv(SetEncryptionKey(h, u, key, allowed, luck).0)
  {
    hide HubInv, Bump;
    if u in h.sessions {
      var kept := h.(sessions := h.sessions[u := h.sessions[u].(encryptionKey := Some(key))]);
      QuietSettingsKeep(h, kept, u);
      if h.sessions[u].room.Some? && CanBump(kept, {h.sessions[u].room.value}, luck) {
        BumpStaysFresh(kept, {h.sessions[u].room.value}, luck);
      }
    }
  }

  lemma KickKeeps(h: Hub, target: UserId, room: RoomId, allowed: bool, luck: Luck)
    requires HubInv(h)
    ensures HubInv(KickFromRoom(h, target, room, allowed, luck).0)
  {
    hide HubInv, LeaveRoom;
    LeaveKeeps(h, target, luck);
  }

  // ---- Rooms ---------------------------------------------------------------------------

  lemma {:induction false} PlaceOutKeeps(h: Hub, users: seq<UserId>, lucks: UserId -> Luck)
    requires HubInv(h)
    ensures HubInv(PlaceOut(h, users, lucks).0)
    decreases |users|
  {
    hide HubInv, Place;
    if users != [] {
      PlaceKeeps(h, users[0], None, false, lucks(users[0]));
      PlaceOutKeeps(Place(h, users[0], None, false, lucks(users[0])).0, users[1..], lucks);
    }
  }

  /** Whoever is placed out of their room is in none, and nobody else moved. */
  lemma PlaceMovesOne(h: Hub, u: UserId, luck: Luck, v: UserId)
    requires u in h.sessions
    ensures var (after, placed) := Place(h, u, None, false, luck);
      placed.Done? ==> RoomOf(after.sessions, v) == if v == u then None else RoomOf(h.sessions, v)
  {
    hide Move, Rebuild, AudiencesIn, Bump;
    var bumped := Bump(h, OneRoom(h.sessions[u].room) + OneRoom(None));
    var moved := Move(bumped, u, None, None);
    BumpStands(h, OneRoom(h.sessions[u].room) + OneRoom(None));
    MoveTouches(bumped, u, None, None);
    RebuildMovesNobody(moved, v);
    RebuildMovesNobody(moved, u);
    PlacementInLobby(Rebuild(moved), u);
    PlacementInLobby(h, u);
  }

  lemma BumpStands(h: Hub, rooms: set<RoomId>)
    ensures Bump(h, rooms) == h.(rooms := Bump(h, rooms).rooms, storedEpochs := Bump(h, rooms).storedEpochs)
  {
  }

  lemma RebuildMovesNobody(h: Hub, v: UserId)
    ensures RoomOf(Rebuild(h).sessions, v) == RoomOf(h.sessions, v)
    ensures Rebuild(h).rooms == h.rooms && (v in Rebuild(h).sessions <==> v in h.sessions)
    ensures v in h.sessions ==> Rebuild(h).sessions[v].tracks == h.sessions[v].tracks
  {
    hide ChangedRooms, AudiencesIn, TableOf, AllAudiences;
  }

  lemma {:induction false} PlaceOutMoves(h: Hub, users: seq<UserId>, lucks: UserId -> Luck, v: UserId)
    requires PlaceOut(h, users, lucks).1.Done? && forall i, j :: 0 <= i < j < |users| ==> users[i] != users[j]
    ensures RoomOf(PlaceOut(h, users, lucks).0.sessions, v) == if v in users then None else RoomOf(h.sessions, v)
    decreases |users|
  {
    hide Place;
    if users != [] {
      var (after, placed) := Place(h, users[0], None, false, lucks(users[0]));
      if users[0] in h.sessions {
        PlaceMovesOne(h, users[0], lucks(users[0]), v);
      } else {
        StrangersStay(h, users[0], lucks(users[0]));
      }
      PlaceOutMoves(after, users[1..], lucks, v);
    }
  }

  lemma StrangersStay(h: Hub, u: UserId, luck: Luck)
    requires u !in h.sessions
    ensures Place(h, u, None, false, luck) == (h, Refused)
  {
  }

  lemma {:induction false} OrderedRises(s: set<int>)
    ensures forall i, j :: 0 <= i < j < |Ordered(s)| ==> Ordered(s)[i] < Ordered(s)[j]
    decreases |s|
  {
    if s != {} {
      OrderedRises(s - {Min(s)});
      OrderedHas(s - {Min(s)});
      var rest := Ordered(s - {Min(s)});
      forall j | 0 <= j < |rest| ensures Min(s) < rest[j] {
        assert rest[j] in rest;
      }
    }
  }

  lemma DeletedKeeps(h: Hub, room: RoomId)
    requires HubInv(h) && room in h.rooms && h.rooms[room].members == {}
    ensures HubInv(h.(rooms := h.rooms - {room}, storedEpochs := h.storedEpochs - {room}))
  {
    hide Sound, Fresh;
    var t := h.(rooms := h.rooms - {room}, storedEpochs := h.storedEpochs - {room});
    DeletedIsSound(h, room);
    SameMembersAlike(h, t);
    StaysFresh(h, t);
  }

  lemma DeletedIsSound(h: Hub, room: RoomId)
    requires Sound(h) && room in h.rooms && h.rooms[room].members == {}
    ensures Sound(h.(rooms := h.rooms - {room}, storedEpochs := h.storedEpochs - {room}))
  {
    hide IdsApart, Numbered;
    var t := h.(rooms := h.rooms - {room}, storedEpochs := h.storedEpochs - {room});
    forall v | v in t.sessions ensures SessionFits(t.sessions, t.rooms, v) {
      assert SessionFits(h.sessions, h.rooms, v);
    }
    forall r | r in t.rooms ensures SharesIn(t, r) <= MAX_ROOM_SHARES {
      assert SharesIn(h, r) <= MAX_ROOM_SHARES;
    }
    assert t.rooms.Keys == h.rooms.Keys - {room} && t.storedEpochs.Keys == h.storedEpochs.Keys - {room};
  }

  lemma SameMembersAlike(h: Hub, t: Hub)
    requires t.sessions == h.sessions
    requires forall r :: MembersOf(t.rooms, r) == MembersOf(h.rooms, r)
    ensures SameRouting(h.sessions, h.rooms, t.sessions, t.rooms)
  {
  }

  lemma DeleteKeeps(h: Hub, room: RoomId, allowed: bool, lucks: UserId -> Luck, deletes: bool)
    requires HubInv(h)
    ensures HubInv(DeleteRoom(h, room, allowed, lucks, deletes).0)
  {
    hide PlaceOut, HubInv;
    if room in h.rooms && allowed {
      var users := Ordered(h.rooms[room].members);
      PlaceOutKeeps(h, users, lucks);
      var (after, out) := PlaceOut(h, users, lucks);
      if out.Done? && deletes {
        RoomIsEmptied(h, room, lucks);
        DeletedKeeps(after, room);
      }
    }
  }

  lemma RoomIsEmptied(h: Hub, room: RoomId, lucks: UserId -> Luck)
    requires HubInv(h) && room in h.rooms && PlaceOut(h, Ordered(h.rooms[room].members), lucks).1.Done?
    ensures var after := PlaceOut(h, Ordered(h.rooms[room].members), lucks).0;
      room in after.rooms && after.rooms[room].members == {}
  {
    hide PlaceOut, Fresh, IdsApart, AllNumbered, AllKnow, WithinCaps, ConnsDiffer, IsStored;
    var users := Ordered(h.rooms[room].members);
    var after := PlaceOut(h, users, lucks).0;
    OrderedHas(h.rooms[room].members);
    OrderedRises(h.rooms[room].members);
    PlaceOutKeeps(h, users, lucks);
    PlaceOutRooms(h, users, lucks);
    forall v ensures v !in after.rooms[room].members {
      PlaceOutMoves(h, users, lucks, v);
      assert v in h.sessions ==> SessionFits(h.sessions, h.rooms, v);
    }
    SameSet(after.rooms[room].members, {});
  }

  lemma {:induction false} PlaceOutRooms(h: Hub, users: seq<UserId>, lucks: UserId -> Luck)
    ensures PlaceOut(h, users, lucks).0.rooms.Keys == h.rooms.Keys
    decreases |users|
  {
    hide Place;
    if users != [] {
      PlaceRooms(h, users[0], None, false, lucks(users[0]));
      PlaceOutRooms(Place(h, users[0], None, false, lucks(users[0])).0, users[1..], lucks);
    }
  }

  lemma PlaceRooms(h: Hub, u: UserId, target: Option<RoomId>, hasKey: bool, luck: Luck)
    ensures Place(h, u, target, hasKey, luck).0.rooms.Keys == h.rooms.Keys
  {
    hide AudiencesIn, TableOf, AllAudiences, ChangedRooms, Bump, With, HubModel.Without;
    if u in h.sessions {
      var changed := OneRoom(h.sessions[u].room) + OneRoom(target);
      var reserved := if target.Some? then h.(nextMedia := h.nextMedia + TRACKS_PER_MEMBERSHIP) else h;
      RoomsStay(reserved, changed, u, target);
    }
  }

  lemma RoomsStay(h: Hub, rooms: set<RoomId>, u: UserId, target: Option<RoomId>)
    ensures With(HubModel.Without(Bump(h, rooms).rooms, RoomOf(Bump(h, rooms).sessions, u), u), target, u).Keys == h.rooms.Keys
  {
    SameSet(Bump(h, rooms).rooms.Keys, h.rooms.Keys);
    var w := HubModel.Without(Bump(h, rooms).rooms, RoomOf(Bump(h, rooms).sessions, u), u);
    SameSet(w.Keys, h.rooms.Keys);
    SameSet(With(w, target, u).Keys, h.rooms.Keys);
  }

  lemma AddKeeps(h: Hub, creates: bool)
    requires HubInv(h)
    ensures HubInv(AddRoom(h, creates).0)
  {
    hide TableOf, AllAudiences, IdsApart, Numbered, Fresh, WithinCaps;
    var t := AddRoom(h, creates).0;
    if creates {
      AddCaps(h);
      SameMembersAlike(h, t);
      StaysFresh(h, t);
      hide SameRouting;
      forall v | v in t.sessions ensures SessionFits(t.sessions, t.rooms, v) {
        assert SessionFits(h.sessions, h.rooms, v);
      }
    }
  }

  lemma AddCaps(h: Hub)
    requires WithinCaps(h)
    ensures h.nextRoom !in h.rooms && WithinCaps(AddRoom(h, true).0)
  {
    assert h.nextRoom !in h.rooms;
    var t := AddRoom(h, true).0;
    forall r | r in t.rooms ensures SharesIn(t, r) <= MAX_ROOM_SHARES {
      if r != h.nextRoom {
        assert SharesIn(h, r) <= MAX_ROOM_SHARES;
      } else {
        assert Sharing(t.sessions, {}) == {};
      }
    }
  }
}
