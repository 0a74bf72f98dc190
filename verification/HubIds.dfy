/** Media ids: never of two memberships, over any run. */
module HubIds {
  import opened Collections
  import opened HubModel
  import opened HubInvariants
  import opened HubSteps
  import opened HubRuns

  ghost predicate CameFrom(h: Hub, t: Hub, v: UserId) {
    v in t.sessions && t.sessions[v].tracks.Some? ==>
      (v in h.sessions && h.sessions[v].tracks == t.sessions[v].tracks) || h.nextMedia <= t.sessions[v].tracks.value.mic
  }

  /** Every membership of `t` is one of `h`, or has ids that `h` hadn't handed out. */
  ghost predicate Since(h: Hub, t: Hub) {
    h.nextMedia <= t.nextMedia && forall v :: CameFrom(h, t, v)
  }

  lemma SinceTwice(h: Hub, t: Hub, w: Hub)
    requires Since(h, t) && Since(t, w)
    ensures Since(h, w)
  {
    forall v ensures CameFrom(h, w, v) {
      assert CameFrom(h, t, v) && CameFrom(t, w, v);
    }
  }

  lemma SameTracks(h: Hub, t: Hub)
    requires h.nextMedia <= t.nextMedia
    requires forall v :: v in t.sessions ==> t.sessions[v].tracks.None? || (v in h.sessions && h.sessions[v].tracks == t.sessions[v].tracks)
    ensures Since(h, t)
  {
  }

  lemma RebuildSince(h: Hub, u: UserId)
    ensures Since(h, Rebuild(h)) && Since(h, PlacementOf(h, u).0)
  {
    hide ChangedRooms, AudiencesIn, TableOf, AllAudiences;
    SameTracks(h, Rebuild(h));
    SameTracks(h, PlacementOf(h, u).0);
  }

  lemma MoveSince(h: Hub, u: UserId, target: Option<RoomId>, tracks: Option<Tracks>, rooms: set<RoomId>)
    requires u in h.sessions
    ensures Since(h, Move(Bump(h, rooms), u, target, None))
    ensures tracks.Some? && tracks.value.mic >= h.nextMedia ==>
      Since(h, Move(Bump(h.(nextMedia := h.nextMedia + TRACKS_PER_MEMBERSHIP), rooms), u, target, tracks))
  {
    hide Bump, Move;
    var reserved := h.(nextMedia := h.nextMedia + TRACKS_PER_MEMBERSHIP);
    BumpStands(h, rooms);
    BumpStands(reserved, rooms);
    MoveTouches(Bump(h, rooms), u, target, None);
    MoveTouches(Bump(reserved, rooms), u, target, tracks);
    SameTracks(h, Move(Bump(h, rooms), u, target, None));
  }

  lemma PlaceSince(h: Hub, u: UserId, target: Option<RoomId>, hasKey: bool, luck: Luck)
    ensures Since(h, Place(h, u, target, hasKey, luck).0)
  {
    hide Rebuild, PlacementOf, Move, Bump, Since;
    SameTracks(h, h);
    if u in h.sessions {
      RebuildSince(h, u);
      var changed := OneRoom(h.sessions[u].room) + OneRoom(target);
      var tracks := if target.Some? then Reserve(h, luck) else None;
      var reserved := if target.Some? then h.(nextMedia := h.nextMedia + TRACKS_PER_MEMBERSHIP) else h;
      var moved := Move(Bump(reserved, changed), u, target, tracks);
      SameTracks(h, reserved);
      MoveSince(h, u, target, tracks, changed);
      RebuildSince(moved, u);
      RebuildSince(Rebuild(moved), u);
      if target.None? || tracks.Some? {
        SinceTwice(h, moved, Rebuild(moved));
        SinceTwice(h, Rebuild(moved), PlacementOf(Rebuild(moved), u).0);
      }
    }
  }

  lemma LeaveSince(h: Hub, u: UserId, luck: Luck)
    ensures Since(h, LeaveRoom(h, u, luck))
  {
    hide Rebuild, Move, Place, Since;
    SameTracks(h, h);
    if u in h.sessions {
      PlaceSince(h, u, None, false, luck);
      PlacedOut(h, u, luck);
      ForcedSince(h, u);
    }
  }

  lemma ForcedSince(h: Hub, u: UserId)
    requires u in h.sessions
    ensures Since(h, Rebuild(Move(h, u, None, None)))
  {
    hide Rebuild, Move, Since;
    MoveTouches(h, u, None, None);
    SameTracks(h, Move(h, u, None, None));
    RebuildSince(Move(h, u, None, None), u);
    SinceTwice(h, Move(h, u, None, None), Rebuild(Move(h, u, None, None)));
  }

  lemma EvictSince(h: Hub, u: UserId, luck: Luck)
    ensures Since(h, Evict(h, u, luck))
  {
    hide LeaveRoom;
    LeaveSince(h, u, luck);
    SameTracks(LeaveRoom(h, u, luck), Evict(h, u, luck));
    SinceTwice(h, LeaveRoom(h, u, luck), Evict(h, u, luck));
  }

  lemma ConnectSince(h: Hub, u: UserId, admin: bool, key: Option<EncryptionKey>, rejoin: Option<RoomId>, hasKey: bool, luck: Luck, again: Luck)
    ensures Since(h, Connect(h, u, admin, key, rejoin, hasKey, luck, again).0)
  {
    hide Evict, Place;
    SameTracks(h, h);
    var evicted, signedIn := Evict(h, u, luck), SignIn(h, u, key, luck);
    EvictSince(h, u, luck);
    SameTracks(evicted, signedIn);
    SinceTwice(h, evicted, signedIn);
    PlaceSince(signedIn, u, rejoin, hasKey, again);
    SinceTwice(h, signedIn, Place(signedIn, u, rejoin, hasKey, again).0);
  }

  lemma {:induction false} PlaceOutSince(h: Hub, users: seq<UserId>, lucks: UserId -> Luck)
    ensures Since(h, PlaceOut(h, users, lucks).0)
    decreases |users|
  {
    hide Place, Since;
    SameTracks(h, h);
    if users != [] {
      var after := Place(h, users[0], None, false, lucks(users[0])).0;
      PlaceSince(h, users[0], None, false, lucks(users[0]));
      PlaceOutSince(after, users[1..], lucks);
      SinceTwice(h, after, PlaceOut(after, users[1..], lucks).0);
    }
  }

  lemma SpeaksSince(h: Hub, u: UserId, deafened: bool, share: Option<int>, allowed: bool)
    ensures Since(h, SetMedia(h, u, deafened, share, allowed).0)
  {
    hide Rebuild, RefusesShare, Since;
    SameTracks(h, h);
    if RoomOf(h.sessions, u).Some? {
      var applied := h.sessions[u].(deafened := deafened, share := if RefusesShare(h, u, share, allowed) then h.sessions[u].share else share);
      var t := h.(sessions := h.sessions[u := applied]);
      SettingsSince(h, t, u);
    }
  }

  lemma WatchesSince(h: Hub, u: UserId, ids: seq<MediaId>)
    ensures Since(h, SetWatched(h, u, ids).0)
  {
    hide Rebuild, MayWatch, Since;
    SameTracks(h, h);
    if u in h.sessions {
      SettingsSince(h, h.(sessions := h.sessions[u := h.sessions[u].(watching := ids)]), u);
    }
  }

  /** Settings are of no media id, whether the routes are rebuilt after them or not. */
  lemma SettingsSince(h: Hub, t: Hub, u: UserId)
    requires u in h.sessions && u in t.sessions && t.sessions[u].tracks == h.sessions[u].tracks
    requires t == h.(sessions := h.sessions[u := t.sessions[u]])
    ensures Since(h, t) && Since(h, Rebuild(t))
  {
    hide Rebuild, Since;
    SameTracks(h, t);
    RebuildSince(t, u);
    SinceTwice(h, t, Rebuild(t));
  }

  lemma RekeysSince(h: Hub, u: UserId, key: EncryptionKey, allowed: bool, luck: Luck)
    ensures Since(h, SetEncryptionKey(h, u, key, allowed, luck).0)
  {
    SameTracks(h, SetEncryptionKey(h, u, key, allowed, luck).0);
  }

  lemma DeletesSince(h: Hub, room: RoomId, allowed: bool, lucks: UserId -> Luck, deletes: bool)
    ensures Since(h, DeleteRoom(h, room, allowed, lucks, deletes).0)
  {
    hide PlaceOut, Since;
    SameTracks(h, h);
    if room in h.rooms && allowed {
      var after, t := PlaceOut(h, Ordered(h.rooms[room].members), lucks).0, DeleteRoom(h, room, allowed, lucks, deletes).0;
      PlaceOutSince(h, Ordered(h.rooms[room].members), lucks);
      SameTracks(after, t);
      SinceTwice(h, after, t);
    }
  }

  lemma ApplySince(h: Hub, op: Op)
    ensures Since(h, Apply(h, op))
  {
    hide Connect, Evict, Place, SetMedia, SetWatched, SetEncryptionKey, LeaveRoom, DeleteRoom, AddRoom, Since;
    SameTracks(h, h);
    match op
    case SignsIn(u, admin, key, rejoin, hasKey, luck, again) => ConnectSince(h, u, admin, key, rejoin, hasKey, luck, again);
    case Hangs(u, conn, luck) => EvictSince(h, u, luck);
    case Removes(u, luck) => EvictSince(h, u, luck);
    case Goes(u, target, hasKey, luck) => PlaceSince(h, u, target, hasKey, luck);
    case Speaks(u, deafened, share, allowed) => SpeaksSince(h, u, deafened, share, allowed);
    case Watches(u, ids) => WatchesSince(h, u, ids);
    case Rekeys(u, key, allowed, luck) => RekeysSince(h, u, key, allowed, luck);
    case Kicks(target, room, allowed, luck) => LeaveSince(h, target, luck);
    case Deletes(room, allowed, lucks, deletes) => DeletesSince(h, room, allowed, lucks, deletes);
    case Adds(creates) => AddsSince(h, creates);
    case Restarts => SameTracks(h, Apply(h, op));
  }

  lemma AddsSince(h: Hub, creates: bool)
    ensures Since(h, AddRoom(h, creates).0)
  {
    SameTracks(h, AddRoom(h, creates).0);
  }

  lemma {:induction false} RunSince(h: Hub, ops: seq<Op>)
    ensures Since(h, Run(h, ops))
    decreases |ops|
  {
    hide Apply, Since;
    SameTracks(h, h);
    if ops != [] {
      ApplySince(h, ops[0]);
      RunSince(Apply(h, ops[0]), ops[1..]);
      SinceTwice(h, Apply(h, ops[0]), Run(Apply(h, ops[0]), ops[1..]));
    }
  }

  /** No media id is ever of two memberships, server restarts included: if a track of `u` at one
      moment of a run has the id of a track of `v` at a later one, then they are the same user,
      who at every moment in between was still in with the same tracks. */
  lemma MediaIdsAreUnique(h: Hub, first: seq<Op>, second: seq<Op>, u: UserId, v: UserId, id: MediaId)
    requires HubInv(h)
    requires SendsOn(h.sessions, u, id) && SendsOn(Run(Run(h, first), second).sessions, v, id)
    ensures u == v && SendsOn(Run(h, first).sessions, u, id)
    ensures h.sessions[u].tracks == Run(h, first).sessions[u].tracks == Run(Run(h, first), second).sessions[v].tracks
  {
    hide Run, Fresh, InStep, WithinCaps, ConnsDiffer, Numbered, IsStored, Since;
    RunsJoin(h, first, second);
    SameMembership(h, first + second, u, v, id);
    RunSince(h, first);
    RunsKeep(h, first);
    RunSince(Run(h, first), second);
    StillThere(h, Run(h, first), Run(Run(h, first), second), u);
  }

  /** Ids that were handed out before don't come back, so whoever has them all along had them. */
  lemma StillThere(h: Hub, t: Hub, w: Hub, u: UserId)
    requires HubInv(h) && Since(h, t) && Since(t, w)
    requires u in h.sessions && u in w.sessions && h.sessions[u].tracks.Some? && h.sessions[u].tracks == w.sessions[u].tracks
    ensures u in t.sessions && t.sessions[u].tracks == h.sessions[u].tracks
  {
    hide Fresh, InStep, WithinCaps, ConnsDiffer, Numbered, IsStored, AllKnow;
    assert CameFrom(t, w, u);
  }

  lemma SameMembership(h: Hub, ops: seq<Op>, u: UserId, v: UserId, id: MediaId)
    requires HubInv(h)
    requires SendsOn(h.sessions, u, id) && SendsOn(Run(h, ops).sessions, v, id)
    ensures u == v && h.sessions[u].tracks == Run(h, ops).sessions[v].tracks
  {
    hide Run, Fresh, InStep, WithinCaps, ConnsDiffer, Numbered, IsStored;
    RunSince(h, ops);
    assert CameFrom(h, Run(h, ops), v);
    RunIsApart(h, ops, v);
  }

  lemma RunIsApart(h: Hub, ops: seq<Op>, v: UserId)
    requires HubInv(h) && v in Run(h, ops).sessions && Run(h, ops).sessions[v].tracks.Some?
    ensures FromOne(Run(h, ops).sessions[v].tracks.value)
  {
    hide Run, Fresh, InStep, WithinCaps, ConnsDiffer, Numbered, IsStored;
    RunsKeep(h, ops);
  }
}
